/** Production availability objectives, and their agreement with the failure scenarios. */
module Objectives {
  import opened Ordering
  import opened Model
  import opened Inventory
  import opened Planner
  import opened Availability
  import Groups

  // ---------------------------------------------------------------- the resolver's own counts

  datatype Objective =
    TolerateValidator | TolerateGroup | TolerateMachine | ObserverCopy | RpcRedundant | StorageDurable

  /** `sum(service in validators for service in group["services"])` */
  function CountListed(ids: seq<Id>, wanted: set<Id>): nat {
    if ids == [] then 0 else (if ids[0] in wanted then 1 else 0) + CountListed(ids[1..], wanted)
  }

  /** How many services of the kind are on the machine. */
  function CountWhere(services: seq<Service>, kind: ServiceType, machine: Id): nat {
    if services == [] then 0
    else
      var n := |services| - 1;
      CountWhere(services[..n], kind, machine) +
          (if services[n].kind == kind && services[n].machine == machine then 1 else 0)
  }

  function IdSet(services: seq<Service>): set<Id> {
    set s | s in services :: s.id
  }

  /** `satisfied[objective]`: counted over the lists of all group definitions and all machines that run a service. */
  predicate Met(d: Deployment, o: Objective) {
    var validators, peers := OfKind(d.services, BesuValidator), OfKind(d.services, IpfsKubo);
    var quorum := Quorum(|validators|);
    match o
    case TolerateValidator => |validators| - 1 >= quorum
    case TolerateGroup =>
      forall g :: g in d.definitions ==>
          |validators| - CountListed(g.services.GetOr<seq<Id>>([]), IdSet(validators)) >= quorum
    case TolerateMachine => forall s :: s in d.services ==>
        |validators| - CountWhere(d.services, BesuValidator, s.machine) >= quorum
    case ObserverCopy => OfKind(d.services, BesuObserver) != []
    case RpcRedundant => |OfKind(d.services, BesuRpc)| >= 2
    case StorageDurable => forall s :: s in d.services ==>
        |peers| - CountWhere(d.services, IpfsKubo, s.machine) >= d.target
  }

  function Unmet(d: Deployment, objectives: set<Objective>): set<Objective> {
    set o | o in objectives && !Met(d, o)
  }

  /** A production deployment selects objectives; the unmet ones must be acknowledged, and no others. */
  function CheckProduction(d: Deployment, objectives: set<Objective>,
                           acknowledged: set<Objective>): Option<set<Objective>> {
    if objectives == {} then None
    else if exists o :: o in Unmet(d, objectives) && o !in acknowledged then None
    else if acknowledged - Unmet(d, objectives) != {} then None
    else Some(Unmet(d, objectives))
  }

  // ---------------------------------------------------------------- the two counts agree

  lemma {:induction false} WhereIsCount(services: seq<Service>, kind: ServiceType, machine: Id)
    ensures CountWhere(services, kind, machine) == Count(OfKind(services, kind), MachineKey(), machine)
  {
    if services != [] {
      var n := |services| - 1;
      WhereIsCount(services[..n], kind, machine);
      if services[n].kind == kind {
        CountSnoc(OfKind(services[..n], kind), services[n], MachineKey(), machine);
      } else {
        assert OfKind(services, kind) == OfKind(services[..n], kind);
      }
    }
  }

  /** The services with the key. */
  function With(services: seq<Service>, key: Service -> Id, k: Id): set<Id> {
    set s | s in services && key(s) == k :: s.id
  }

  /** A count is the size of a set of services: what a scenario loses. */
  lemma {:induction false} CountIsSize(services: seq<Service>, key: Service -> Id, k: Id)
    requires UniqueServices(services)
    ensures Count(services, key, k) == |With(services, key, k)|
  {
    if services != [] {
      var n := |services| - 1;
      var s := services[n];
      CountIsSize(services[..n], key, k);
      assert services == services[..n] + [s];
      forall x | x in services[..n] ensures x.id != s.id {
        var i :| 0 <= i < n && services[..n][i] == x;
        assert services[i] == x;
      }
      assert s.id !in With(services[..n], key, k);
      assert With(services, key, k) == With(services[..n], key, k) + (if key(s) == k then {s.id} else {});
    }
  }

  /** A loss scenario is the loss of a set of validators: consensus continues exactly when the survivors form a
      quorum, that is, when no more than the tolerated number are lost. */
  lemma LossIsSubset(validators: seq<Service>, key: Service -> Id, k: Id)
    requires UniqueServices(validators) && validators != []
    ensures var all, lost := IdSet(validators), With(validators, key, k);
            && lost <= all && |all| == |validators|
            && (|validators| - Count(validators, key, k) >= Quorum(|validators|) <==> |all - lost| >= Quorum(|all|))
            && (|validators| - Count(validators, key, k) >= Quorum(|validators|) <==> |lost| <= (|all| - 1) / 3)
  {
    var all, lost := IdSet(validators), With(validators, key, k);
    ServiceIdsDistinct(validators);
    assert validators[0].id in all;
    CountIsSize(validators, key, k);
    assert (all - lost) + lost == all;
    SurvivorsIff(all, lost);
  }

  lemma ServiceIdsDistinct(services: seq<Service>)
    requires UniqueServices(services)
    ensures |IdSet(services)| == |services|
  {
    var ids := ServiceIds(services);
    NoRepeatsSize(ids);
    forall s | s in services ensures s.id in ids {
      var i :| 0 <= i < |services| && services[i] == s;
      assert ids[i] == s.id;
    }
    assert ToSet(ids) == IdSet(services);
  }

  lemma {:induction false} ListedIsSize(ids: seq<Id>, wanted: set<Id>)
    requires NoRepeats(ids)
    ensures CountListed(ids, wanted) == |ToSet(ids) * wanted|
  {
    if ids != [] {
      ListedIsSize(ids[1..], wanted);
      assert ids == [ids[0]] + ids[1..] && ids[0] !in ids[1..];
      assert ToSet(ids) * wanted == ToSet(ids[1..]) * wanted + (if ids[0] in wanted then {ids[0]} else {});
    }
  }

  /** Group ids are the keys of an object. */
  ghost predicate DistinctGroups(groups: seq<Group>) {
    forall i, j :: 0 <= i < j < |groups| ==> groups[i].id != groups[j].id
  }

  ghost predicate Disjoint(groups: seq<Group>) {
    forall i, j, id :: 0 <= i < j < |groups| && id in groups[i].services ==> id !in groups[j].services
  }

  lemma {:induction false} IndexFindsGroup(groups: seq<Group>, i: nat, id: Id)
    requires Disjoint(groups) && i < |groups| && id in groups[i].services
    ensures id in GroupIndex(groups) && GroupIndex(groups)[id] == groups[i].id
  {
    var n := |groups| - 1;
    if i < n {
      IndexFindsGroup(groups[..n], i, id);
      assert id !in groups[n].services;
    }
  }

  lemma IndexOfService(services: seq<Service>, groups: seq<Group>, s: Service) returns (i: nat)
    requires Groups.Partition(services, groups) && s in services
    ensures i < |groups| && s.id in groups[i].services && GroupKey(groups)(s) == groups[i].id
  {
    i :| 0 <= i < |groups| && s.id in groups[i].services;
    assert Disjoint(groups);
    IndexFindsGroup(groups, i, s.id);
  }

  /** A validator is in the group's list exactly when the index puts it in that group. */
  lemma ListedIff(services: seq<Service>, groups: seq<Group>, i: nat, s: Service)
    requires Groups.Partition(services, groups) && DistinctGroups(groups) && i < |groups| && s in services
    ensures s.id in groups[i].services <==> GroupKey(groups)(s) == groups[i].id
  {
    var j := IndexOfService(services, groups, s);
  }

  lemma GroupMembers(services: seq<Service>, groups: seq<Group>, i: nat, validators: seq<Service>)
    requires UniqueServices(services) && Groups.Partition(services, groups) && DistinctGroups(groups) && i < |groups|
    requires forall s :: s in validators ==> s in services
    ensures ToSet(groups[i].services) * IdSet(validators) == With(validators, GroupKey(groups), groups[i].id)
  {
    var ids, key := groups[i].services, GroupKey(groups);
    forall id | id in ids && id in IdSet(validators) ensures id in With(validators, key, groups[i].id) {
      var s :| s in validators && s.id == id;
      ListedIff(services, groups, i, s);
    }
    forall id | id in With(validators, key, groups[i].id) ensures id in ids && id in IdSet(validators) {
      var s :| s in validators && key(s) == groups[i].id && s.id == id;
      ListedIff(services, groups, i, s);
    }
  }

  /** Counting a group's own list is counting the validators whose group it is. */
  lemma ListedIsCount(services: seq<Service>, groups: seq<Group>, i: nat)
    requires UniqueServices(services) && Groups.Partition(services, groups) && DistinctGroups(groups) && i < |groups|
    ensures CountListed(groups[i].services, IdSet(OfKind(services, BesuValidator)))
            == Count(OfKind(services, BesuValidator), GroupKey(groups), groups[i].id)
  {
    var validators := OfKind(services, BesuValidator);
    OfKindUnique(services, BesuValidator);
    assert NoRepeats(groups[i].services);
    ListedIsSize(groups[i].services, IdSet(validators));
    CountIsSize(validators, GroupKey(groups), groups[i].id);
    GroupMembers(services, groups, i, validators);
  }

  /** The plan's groups come from definitions with explicit lists, and every validator is on one of the lists. */
  ghost predicate Resolved(d: Deployment, machines: set<Id>) {
    && UniqueServices(d.services) && DistinctGroups(d.groups)
    && Groups.Acceptable(d.services, machines, d.definitions) && Groups.GroupsAre(d.services, d.definitions, d.groups)
    && (forall g :: g in d.definitions ==> g.services.Some?)
    && (forall s :: s in OfKind(d.services, BesuValidator) ==> IsListed(d.definitions, s.id))
  }

  ghost predicate IsListed(definitions: seq<Groups.Definition>, id: Id) {
    exists i :: 0 <= i < |definitions| && definitions[i].services.Some? && id in definitions[i].services.value
  }

  lemma {:induction false} CountListedConcat(a: seq<Id>, b: seq<Id>, wanted: set<Id>)
    requires forall id :: id in b ==> id !in wanted
    ensures CountListed(a + b, wanted) == CountListed(a, wanted)
  {
    if a != [] {
      assert (a + b)[1..] == a[1..] + b;
      CountListedConcat(a[1..], b, wanted);
    } else {
      assert a + b == b;
      NoneListed(b, wanted);
    }
  }

  lemma {:induction false} NoneListed(ids: seq<Id>, wanted: set<Id>)
    requires forall id :: id in ids ==> id !in wanted
    ensures CountListed(ids, wanted) == 0
  {
    if ids != [] { NoneListed(ids[1..], wanted); }
  }

  lemma ListsAreExplicit(services: seq<Service>, machines: set<Id>, definitions: seq<Groups.Definition>, i: nat)
    requires Groups.Acceptable(services, machines, definitions) && i < |definitions| && definitions[i].services.Some?
    ensures Groups.Lists(services, definitions)[i] == definitions[i].services.value
  {
    assert Groups.Sound(services, machines, definitions[i]);
  }

  /** Adoption gives a group no validator: the plan's group counts as many as its definition lists. */
  lemma AdoptionKeepsCount(d: Deployment, machines: set<Id>, i: nat)
    requires Resolved(d, machines) && i < |d.definitions|
    ensures |d.groups| == |d.definitions| && d.definitions[i].services.Some?
    ensures CountListed(d.definitions[i].services.value, IdSet(OfKind(d.services, BesuValidator)))
            == CountListed(d.groups[i].services, IdSet(OfKind(d.services, BesuValidator)))
  {
    var lists := Groups.Lists(d.services, d.definitions);
    var adopted := Groups.Adopted(d.services, ToSet(Flatten(lists)), d.definitions[i].machine);
    assert d.definitions[i] in d.definitions;
    ListsAreExplicit(d.services, machines, d.definitions, i);
    FlattenMembers(lists);
    Groups.AdoptedMembers(d.services, ToSet(Flatten(lists)), d.definitions[i].machine);
    forall id | id in adopted ensures id !in IdSet(OfKind(d.services, BesuValidator)) {
      if s :| s in OfKind(d.services, BesuValidator) && s.id == id {
        assert IsListed(d.definitions, id);
        var j :| 0 <= j < |d.definitions| && d.definitions[j].services.Some? && id in d.definitions[j].services.value;
        ListsAreExplicit(d.services, machines, d.definitions, j);
      }
    }
    CountListedConcat(lists[i], adopted, IdSet(OfKind(d.services, BesuValidator)));
  }

  lemma {:induction false} OfKindUnique(services: seq<Service>, kind: ServiceType)
    requires UniqueServices(services)
    ensures UniqueServices(OfKind(services, kind))
  {
    if services != [] {
      var n := |services| - 1;
      OfKindUnique(services[..n], kind);
      var front := OfKind(services[..n], kind);
      forall i | 0 <= i < |front| ensures front[i].id != services[n].id {
        assert front[i] in services[..n];
        var j :| 0 <= j < n && services[..n][j] == front[i];
        assert services[j] == front[i];
      }
    }
  }

  // ---------------------------------------------------------------- objectives against scenarios

  /** Some scenario of this loss stops consensus. */
  ghost predicate ReportsQuorumLoss(r: seq<Scenario>, loss: Loss) {
    exists f :: f in r && f.loss == loss && f.consensus == QuorumLost
  }

  /** Some scenario of this loss leaves the storage below its durability target. */
  ghost predicate ReportsUndurable(r: seq<Scenario>, loss: Loss) {
    exists f :: f in r && f.loss == loss && (f.storage == DurabilityUnmet || f.storage == PublicationUnavailable)
  }

  /** The scenarios of one loss are those of its part of the report. */
  lemma ScenariosByLoss(d: Deployment, f: Scenario)
    ensures f in Scenarios(d) && f.loss == ValidatorLoss <==> f in ValidatorScenarios(d)
    ensures f in Scenarios(d) && f.loss == GroupLoss <==> f in GroupScenarios(d, ValidatorGroupIds(d))
    ensures f in Scenarios(d) && f.loss == MachineLoss <==> f in MachineScenarios(d, ScenarioMachines(d))
  {
    var a, b, c, e := ValidatorScenarios(d), GroupScenarios(d, ValidatorGroupIds(d)),
        MachineScenarios(d, ScenarioMachines(d)), PeerScenarios(d);
    OneOfFive(a, b, c, ScenarioFor(TotalsOf(d), PrimaryLoss, d.primary.id, 0, 0, true, 0), e, f);
    assert f in a ==> f.loss == ValidatorLoss;
    assert f in b ==> f.loss == GroupLoss;
    assert f in c ==> f.loss == MachineLoss;
    assert f in e ==> f.loss == PeerLoss;
  }

  function ValidatorGroupIds(d: Deployment): seq<Id> {
    Groups.Deduplicate(Keys(OfKind(d.services, BesuValidator), GroupKey(d.groups)))
  }

  lemma ListedAmong(keys: seq<Id>, primary: Id, m: Id)
    ensures m in SortBy(Groups.Deduplicate(keys + [primary]), ByName) <==> m in keys || m == primary
  {
    SortMembers(Groups.Deduplicate(keys + [primary]), ByName);
    assert m in keys + [primary] <==> m in keys || m == primary;
  }

  predicate HasScenario(kind: ServiceType) {
    kind == BesuValidator || kind == BesuObserver || kind == IpfsKubo
  }

  lemma CountedOn(services: seq<Service>, m: Id)
    ensures (exists s :: s in Counted(services) && s.machine == m) <==>
            (exists s :: s in services && s.machine == m && HasScenario(s.kind))
  {
    forall s ensures s in Counted(services) <==> s in services && HasScenario(s.kind) {
    }
  }

  lemma KeysMember(services: seq<Service>, m: Id)
    ensures m in Keys(services, MachineKey()) <==> exists s :: s in services && s.machine == m
  {
    var keys := Keys(services, MachineKey());
    if s :| s in services && s.machine == m {
      var i :| 0 <= i < |services| && services[i] == s;
      assert keys[i] == m;
    }
    if m in keys {
      var i :| 0 <= i < |keys| && keys[i] == m;
      assert services[i] in services;
    }
  }

  lemma MachineIsListed(d: Deployment, m: Id)
    ensures m in ScenarioMachines(d) <==>
            m == d.primary.machine || (exists s :: s in d.services && s.machine == m && HasScenario(s.kind))
  {
    var keys := Keys(Counted(d.services), MachineKey());
    ListedAmong(keys, d.primary.machine, m);
    KeysMember(Counted(d.services), m);
    CountedOn(d.services, m);
  }

  lemma ValidatorIsReported(d: Deployment)
    requires OfKind(d.services, BesuValidator) != []
    ensures
      ScenarioFor(TotalsOf(d), ValidatorLoss, OfKind(d.services, BesuValidator)[0].id, 1, 0, false, 0) in Scenarios(d)
  {
    var r := ValidatorScenarios(d);
    assert r[0] in r;
    ScenariosByLoss(d, r[0]);
  }

  lemma ReportedValidator(d: Deployment, f: Scenario)
    requires f in Scenarios(d) && f.loss == ValidatorLoss
    ensures f == ScenarioFor(TotalsOf(d), ValidatorLoss, f.target, 1, 0, false, 0)
  {
    ScenariosByLoss(d, f);
    var r := ValidatorScenarios(d);
    var i :| 0 <= i < |r| && r[i] == f;
  }

  lemma ValidatorObjectiveAgrees(d: Deployment)
    requires OfKind(d.services, BesuValidator) != []
    ensures Met(d, TolerateValidator) <==> !ReportsQuorumLoss(Scenarios(d), ValidatorLoss)
  {
    ValidatorIsReported(d);
    if ReportsQuorumLoss(Scenarios(d), ValidatorLoss) {
      var f :| f in Scenarios(d) && f.loss == ValidatorLoss && f.consensus == QuorumLost;
      ReportedValidator(d, f);
    }
  }

  /** Losing a group that takes a validator with it is reported, with the group's count. */
  lemma GroupIsReported(d: Deployment, k: Id)
    requires Count(OfKind(d.services, BesuValidator), GroupKey(d.groups), k) > 0
    ensures ScenarioFor(TotalsOf(d), GroupLoss, k, Count(OfKind(d.services, BesuValidator), GroupKey(d.groups), k), 0,
            false, 0) in Scenarios(d)
  {
    KeyIsListed(OfKind(d.services, BesuValidator), GroupKey(d.groups), k);
    var keys := ValidatorGroupIds(d);
    var j :| 0 <= j < |keys| && keys[j] == k;
    var r := GroupScenarios(d, keys);
    assert r[j] in r;
    ScenariosByLoss(d, r[j]);
  }

  lemma ReportedGroup(d: Deployment, f: Scenario) returns (s: Service)
    requires f in Scenarios(d) && f.loss == GroupLoss
    ensures s in d.services && f.target == GroupKey(d.groups)(s)
    ensures f == ScenarioFor(TotalsOf(d), GroupLoss, f.target,
            Count(OfKind(d.services, BesuValidator), GroupKey(d.groups), f.target), 0, false, 0)
  {
    ScenariosByLoss(d, f);
    var keys := ValidatorGroupIds(d);
    var r := GroupScenarios(d, keys);
    var j :| 0 <= j < |r| && r[j] == f;
    assert keys[j] in keys;
    KeyIsListed(OfKind(d.services, BesuValidator), GroupKey(d.groups), keys[j]);
    s :| s in OfKind(d.services, BesuValidator) && GroupKey(d.groups)(s) == keys[j];
  }

  lemma UnmetGroupIsReported(d: Deployment, machines: set<Id>, i: nat)
    requires Resolved(d, machines) && i < |d.definitions|
    requires OfKind(d.services, BesuValidator) != []
    requires TotalsOf(d).validators - CountListed(d.definitions[i].services.GetOr<seq<Id>>([]),
             IdSet(OfKind(d.services, BesuValidator)))
             < Quorum(TotalsOf(d).validators)
    ensures ReportsQuorumLoss(Scenarios(d), GroupLoss)
  {
    Groups.GroupsPartitionServices(d.services, machines, d.definitions, d.groups);
    AdoptionKeepsCount(d, machines, i);
    QuorumMargin(TotalsOf(d).validators);
    ListedIsCount(d.services, d.groups, i);
    GroupIsReported(d, d.groups[i].id);
  }

  lemma ReportedGroupIsUnmet(d: Deployment, machines: set<Id>, f: Scenario) returns (i: nat)
    requires Resolved(d, machines)
    requires f in Scenarios(d) && f.loss == GroupLoss && f.consensus == QuorumLost
    ensures i < |d.definitions|
    ensures TotalsOf(d).validators - CountListed(d.definitions[i].services.GetOr<seq<Id>>([]),
            IdSet(OfKind(d.services, BesuValidator)))
            < Quorum(TotalsOf(d).validators)
  {
    Groups.GroupsPartitionServices(d.services, machines, d.definitions, d.groups);
    var s := ReportedGroup(d, f);
    i := IndexOfService(d.services, d.groups, s);
    ListedIsCount(d.services, d.groups, i);
    AdoptionKeepsCount(d, machines, i);
  }

  /** The resolver's sums over its own lists agree with the analysis of the plan's groups. */
  lemma GroupObjectiveAgrees(d: Deployment, machines: set<Id>)
    requires Resolved(d, machines)
    requires OfKind(d.services, BesuValidator) != []
    ensures Met(d, TolerateGroup) <==> !ReportsQuorumLoss(Scenarios(d), GroupLoss)
  {
    if !Met(d, TolerateGroup) {
      var g :| g in d.definitions
        && TotalsOf(d).validators - CountListed(g.services.GetOr<seq<Id>>([]),
            IdSet(OfKind(d.services, BesuValidator))) < Quorum(TotalsOf(d).validators);
      var i :| 0 <= i < |d.definitions| && d.definitions[i] == g;
      UnmetGroupIsReported(d, machines, i);
    }
    if ReportsQuorumLoss(Scenarios(d), GroupLoss) {
      var f :| f in Scenarios(d) && f.loss == GroupLoss && f.consensus == QuorumLost;
      var i := ReportedGroupIsUnmet(d, machines, f);
      assert d.definitions[i] in d.definitions;
    }
  }

  lemma KeyIsListed(services: seq<Service>, key: Service -> Id, k: Id)
    ensures k in Groups.Deduplicate(Keys(services, key)) <==> Count(services, key, k) > 0
    ensures k in Groups.Deduplicate(Keys(services, key)) <==> exists s :: s in services && key(s) == k
  {
    CountPositive(services, key, k);
    var keys := Keys(services, key);
    if s :| s in services && key(s) == k {
      var i :| 0 <= i < |services| && services[i] == s;
      assert keys[i] == k;
    }
    if k in keys {
      var i :| 0 <= i < |keys| && keys[i] == k;
      assert services[i] in services;
    }
  }

  /** Losing a machine is reported whenever it takes a validator or a storage peer with it. */
  lemma MachineIsReported(d: Deployment, m: Id)
    requires Count(OfKind(d.services, BesuValidator), MachineKey(), m) > 0 ||
             Count(OfKind(d.services, IpfsKubo), MachineKey(), m) > 0
    ensures MachineScenario(d, m) in Scenarios(d) && exists s :: s in d.services && s.machine == m
  {
    CountPositive(OfKind(d.services, BesuValidator), MachineKey(), m);
    CountPositive(OfKind(d.services, IpfsKubo), MachineKey(), m);
    MachineIsListed(d, m);
    var machines := ScenarioMachines(d);
    var i :| 0 <= i < |machines| && machines[i] == m;
    var r := MachineScenarios(d, machines);
    assert r[i] in r;
    ScenariosByLoss(d, r[i]);
  }

  lemma ReportedMachine(d: Deployment, f: Scenario) returns (m: Id)
    requires f in Scenarios(d) && f.loss == MachineLoss
    ensures f == MachineScenario(d, m)
  {
    ScenariosByLoss(d, f);
    var r := MachineScenarios(d, ScenarioMachines(d));
    var i :| 0 <= i < |r| && r[i] == f;
    m := ScenarioMachines(d)[i];
  }

  lemma UnmetMachineIsReported(d: Deployment, m: Id)
    requires OfKind(d.services, BesuValidator) != []
    requires TotalsOf(d).validators - CountWhere(d.services, BesuValidator, m) < Quorum(TotalsOf(d).validators)
    ensures ReportsQuorumLoss(Scenarios(d), MachineLoss)
  {
    QuorumMargin(TotalsOf(d).validators);
    WhereIsCount(d.services, BesuValidator, m);
    MachineIsReported(d, m);
    assert MachineScenario(d, m).consensus == QuorumLost;
  }

  lemma ReportedMachineIsUnmet(d: Deployment, m: Id)
    requires OfKind(d.services, BesuValidator) != [] && MachineScenario(d, m).consensus == QuorumLost
    ensures TotalsOf(d).validators - CountWhere(d.services, BesuValidator, m) < Quorum(TotalsOf(d).validators)
    ensures exists s :: s in d.services && s.machine == m
  {
    QuorumMargin(TotalsOf(d).validators);
    WhereIsCount(d.services, BesuValidator, m);
    MachineIsReported(d, m);
  }

  lemma MachineObjectiveAgrees(d: Deployment)
    requires OfKind(d.services, BesuValidator) != []
    ensures Met(d, TolerateMachine) <==> !ReportsQuorumLoss(Scenarios(d), MachineLoss)
  {
    if !Met(d, TolerateMachine) {
      var s :| s in d.services &&
          TotalsOf(d).validators - CountWhere(d.services, BesuValidator, s.machine) < Quorum(TotalsOf(d).validators);
      UnmetMachineIsReported(d, s.machine);
    }
    if ReportsQuorumLoss(Scenarios(d), MachineLoss) {
      var f :| f in Scenarios(d) && f.loss == MachineLoss && f.consensus == QuorumLost;
      var m := ReportedMachine(d, f);
      ReportedMachineIsUnmet(d, m);
      var s :| s in d.services && s.machine == m;
      assert !Met(d, TolerateMachine);
    }
  }

  lemma UndurableIff(t: Totals, lost: nat)
    requires t.publishAfter <= t.target
    ensures StorageAfter(t, lost) == DurabilityUnmet || StorageAfter(t, lost) == PublicationUnavailable <==>
            t.peers - lost < t.target
  {
  }

  lemma UnmetStorageIsReported(d: Deployment, m: Id)
    requires d.publishAfter <= d.target <= TotalsOf(d).peers
    requires TotalsOf(d).peers - CountWhere(d.services, IpfsKubo, m) < d.target
    ensures ReportsUndurable(Scenarios(d), MachineLoss)
  {
    WhereIsCount(d.services, IpfsKubo, m);
    MachineIsReported(d, m);
    UndurableIff(TotalsOf(d), Count(OfKind(d.services, IpfsKubo), MachineKey(), m));
  }

  lemma ReportedStorageIsUnmet(d: Deployment, m: Id)
    requires d.publishAfter <= d.target <= TotalsOf(d).peers
    requires MachineScenario(d, m).storage == DurabilityUnmet || MachineScenario(d, m).storage == PublicationUnavailable
    ensures TotalsOf(d).peers - CountWhere(d.services, IpfsKubo, m) < d.target
    ensures exists s :: s in d.services && s.machine == m
  {
    WhereIsCount(d.services, IpfsKubo, m);
    UndurableIff(TotalsOf(d), Count(OfKind(d.services, IpfsKubo), MachineKey(), m));
    MachineIsReported(d, m);
  }

  lemma StorageObjectiveAgrees(d: Deployment)
    requires d.publishAfter <= d.target <= TotalsOf(d).peers
    ensures Met(d, StorageDurable) <==> !ReportsUndurable(Scenarios(d), MachineLoss)
  {
    if !Met(d, StorageDurable) {
      var s :| s in d.services && TotalsOf(d).peers - CountWhere(d.services, IpfsKubo, s.machine) < d.target;
      UnmetStorageIsReported(d, s.machine);
    }
    if ReportsUndurable(Scenarios(d), MachineLoss) {
      var f :| f in Scenarios(d) && f.loss == MachineLoss &&
          (f.storage == DurabilityUnmet || f.storage == PublicationUnavailable);
      var m := ReportedMachine(d, f);
      ReportedStorageIsUnmet(d, m);
      var s :| s in d.services && s.machine == m;
      assert !Met(d, StorageDurable);
    }
  }

  /** What the analysis reports against each objective it can judge. */
  ghost predicate ReportedAgainst(d: Deployment, o: Objective) {
    match o
    case TolerateValidator => ReportsQuorumLoss(Scenarios(d), ValidatorLoss)
    case TolerateGroup => ReportsQuorumLoss(Scenarios(d), GroupLoss)
    case TolerateMachine => ReportsQuorumLoss(Scenarios(d), MachineLoss)
    case StorageDurable => ReportsUndurable(Scenarios(d), MachineLoss)
    case ObserverCopy => OfKind(d.services, BesuObserver) == []
    case RpcRedundant => |OfKind(d.services, BesuRpc)| < 2
  }

  /**
   * A production deployment passes exactly when it acknowledges the selected objectives the
   * analysis reports against.
   */
  lemma ProductionAcceptedIff(d: Deployment, machines: set<Id>, objectives: set<Objective>,
                              acknowledged: set<Objective>)
    requires Resolved(d, machines)
    requires OfKind(d.services, BesuValidator) != [] && d.publishAfter <= d.target <= TotalsOf(d).peers
    ensures forall o :: Met(d, o) <==> !ReportedAgainst(d, o)
    ensures CheckProduction(d, objectives, acknowledged).Some? <==>
            objectives != {} && acknowledged == set o | o in objectives && ReportedAgainst(d, o)
  {
    forall o ensures Met(d, o) <==> !ReportedAgainst(d, o) {
      match o
      case TolerateValidator => ValidatorObjectiveAgrees(d);
      case TolerateGroup => GroupObjectiveAgrees(d, machines);
      case TolerateMachine => MachineObjectiveAgrees(d);
      case StorageDurable => StorageObjectiveAgrees(d);
      case _ =>
    }
    AcknowledgeExactly(d, objectives, acknowledged);
    assert Unmet(d, objectives) == set o | o in objectives && ReportedAgainst(d, o);
  }

  lemma AcknowledgeExactly(d: Deployment, objectives: set<Objective>, acknowledged: set<Objective>)
    ensures CheckProduction(d, objectives, acknowledged).Some? <==>
            objectives != {} && acknowledged == Unmet(d, objectives)
  {
    if CheckProduction(d, objectives, acknowledged).Some? {
      forall o ensures o in acknowledged <==> o in Unmet(d, objectives) {
        assert o !in acknowledged - Unmet(d, objectives);
      }
    }
  }
}
