/** Quorum and failure-domain analysis, and the production objectives checked independently of it. */
module Availability {
  import opened Ordering
  import opened Model
  import opened Inventory
  import opened Planner
  import Groups

  // ---------------------------------------------------------------- counting

  /** How many services have the key. */
  function Count(services: seq<Service>, key: Service -> Id, k: Id): (r: nat)
    ensures r <= |services|
  {
    if services == [] then 0
    else
      var n := |services| - 1;
      Count(services[..n], key, k) + (if key(services[n]) == k then 1 else 0)
  }

  function Keys(services: seq<Service>, key: Service -> Id): (r: seq<Id>)
    ensures |r| == |services| && forall i :: 0 <= i < |r| ==> r[i] == key(services[i])
  {
    seq(|services|, i requires 0 <= i < |services| => key(services[i]))
  }

  /** A dict of counts with its keys in insertion order. */
  datatype Tally = Tally(keys: seq<Id>, counts: map<Id, nat>)

  function At(t: Tally, k: Id): nat {
    if k in t.counts then t.counts[k] else 0
  }

  ghost predicate Counts(t: Tally, services: seq<Service>, key: Service -> Id) {
    && t.keys == Groups.Deduplicate(Keys(services, key)) && t.counts.Keys == ToSet(t.keys)
    && forall k :: At(t, k) == Count(services, key, k)
  }

  function CountOne(t: Tally, k: Id): Tally {
    Tally(if k in t.counts then t.keys else t.keys + [k], t.counts[k := At(t, k) + 1])
  }

  /** `counts[key] = counts.get(key, 0) + 1` over the services. */
  method CountBy(services: seq<Service>, key: Service -> Id) returns (t: Tally)
    ensures Counts(t, services, key)
  {
    t := Tally([], map[]);
    NothingCounted(services, key);
    for n := 0 to |services|
      invariant Counts(t, services[..n], key)
    {
      CountNextAt(t, services, n, key);
      t := CountOne(t, key(services[n]));
    }
    assert services[..|services|] == services;
  }

  lemma NothingCounted(services: seq<Service>, key: Service -> Id)
    ensures Counts(Tally([], map[]), services[..0], key)
  {
  }

  lemma CountNextAt(t: Tally, services: seq<Service>, n: nat, key: Service -> Id)
    requires n < |services| && Counts(t, services[..n], key)
    ensures Counts(CountOne(t, key(services[n])), services[..n + 1], key)
  {
    CountNext(t, services[..n], services[n], key);
    assert services[..n + 1] == services[..n] + [services[n]];
  }

  lemma CountSnoc(services: seq<Service>, s: Service, key: Service -> Id, k: Id)
    ensures Count(services + [s], key, k) == Count(services, key, k) + (if key(s) == k then 1 else 0)
  {
    assert (services + [s])[..|services|] == services;
  }

  lemma KeysSnoc(services: seq<Service>, s: Service, key: Service -> Id)
    ensures var front := Groups.Deduplicate(Keys(services, key));
            Groups.Deduplicate(Keys(services + [s], key)) == if key(s) in front then front else front + [key(s)]
  {
    var keys := Keys(services + [s], key);
    assert keys[..|services|] == Keys(services, key);
  }

  lemma ToSetSnoc(keys: seq<Id>, k: Id)
    ensures ToSet(keys + [k]) == ToSet(keys) + {k}
  {
  }

  lemma CountOneKeys(t: Tally, k: Id)
    requires t.counts.Keys == ToSet(t.keys)
    ensures CountOne(t, k).counts.Keys == ToSet(CountOne(t, k).keys)
    ensures forall j :: At(CountOne(t, k), j) == At(t, j) + (if j == k then 1 else 0)
  {
    ToSetSnoc(t.keys, k);
    assert CountOne(t, k).counts.Keys == t.counts.Keys + {k};
  }

  lemma CountNext(t: Tally, services: seq<Service>, s: Service, key: Service -> Id)
    requires Counts(t, services, key)
    ensures Counts(CountOne(t, key(s)), services + [s], key)
  {
    KeysSnoc(services, s, key);
    CountOneKeys(t, key(s));
    forall k ensures Count(services + [s], key, k) == Count(services, key, k) + (if k == key(s) then 1 else 0) {
      CountSnoc(services, s, key, k);
    }
  }

  /** Some service has the key exactly when its count is positive. */
  lemma {:induction false} CountPositive(services: seq<Service>, key: Service -> Id, k: Id)
    ensures Count(services, key, k) > 0 <==> exists s :: s in services && key(s) == k
  {
    if services != [] {
      var n := |services| - 1;
      assert services == services[..n] + [services[n]];
      CountPositive(services[..n], key, k);
    }
  }

  function Sum(keys: seq<Id>, t: Tally): nat {
    if keys == [] then 0 else At(t, keys[0]) + Sum(keys[1..], t)
  }

  /** The counts of a tally add up to the services counted: each is lost with exactly one key. */
  lemma {:induction false} TallySums(services: seq<Service>, key: Service -> Id, t: Tally, keys: seq<Id>)
    requires Counts(t, services, key) && NoRepeats(keys) && forall s :: s in services ==> key(s) in keys
    ensures Sum(keys, t) == |services|
  {
    SumOfCounts(services, key, keys);
    SameSum(services, key, t, keys);
  }

  function SumCounts(keys: seq<Id>, services: seq<Service>, key: Service -> Id): nat {
    if keys == [] then 0 else Count(services, key, keys[0]) + SumCounts(keys[1..], services, key)
  }

  lemma {:induction false} SameSum(services: seq<Service>, key: Service -> Id, t: Tally, keys: seq<Id>)
    requires Counts(t, services, key)
    ensures Sum(keys, t) == SumCounts(keys, services, key)
  {
    if keys != [] { SameSum(services, key, t, keys[1..]); }
  }

  lemma {:induction false} SumOfCounts(services: seq<Service>, key: Service -> Id, keys: seq<Id>)
    requires NoRepeats(keys) && forall s :: s in services ==> key(s) in keys
    ensures SumCounts(keys, services, key) == |services|
  {
    if services == [] {
      SumOfNothing(key, keys);
    } else {
      var n := |services| - 1;
      assert services == services[..n] + [services[n]];
      SumOfCounts(services[..n], key, keys);
      SumStep(services, key, keys);
    }
  }

  lemma {:induction false} SumOfNothing(key: Service -> Id, keys: seq<Id>)
    ensures SumCounts(keys, [], key) == 0
  {
    if keys != [] { SumOfNothing(key, keys[1..]); }
  }

  lemma {:induction false} SumStep(services: seq<Service>, key: Service -> Id, keys: seq<Id>)
    requires services != [] && NoRepeats(keys)
    ensures SumCounts(keys, services, key) ==
            SumCounts(keys, services[..|services| - 1], key) + (if key(services[|services| - 1]) in keys then 1 else 0)
  {
    if keys != [] {
      SumStep(services, key, keys[1..]);
      assert keys == [keys[0]] + keys[1..] && keys[0] !in keys[1..];
    }
  }

  // ---------------------------------------------------------------- quorum

  function Quorum(n: nat): nat {
    2 * n / 3 + 1
  }

  /**
   * The margin is the classical Byzantine bound; the quorum is never below two thirds, and is two
   * thirds rounded up unless 3 divides n.
   */
  lemma QuorumMargin(n: nat)
    requires n >= 1
    ensures n - Quorum(n) == (n - 1) / 3 && Quorum(n) <= n
    ensures 3 * Quorum(n) >= 2 * n && (Quorum(n) == (2 * n + 2) / 3 <==> n % 3 != 0)
  {
  }

  /** Two quorums share more members than may be faulty. */
  lemma QuorumsIntersect<T>(all: set<T>, a: set<T>, b: set<T>)
    requires all != {} && a <= all && b <= all && |a| >= Quorum(|all|) && |b| >= Quorum(|all|)
    ensures |a * b| > (|all| - 1) / 3
  {
    assert |a + b| == |a| + |b| - |a * b|;
    SubsetSize(a + b, all);
    QuorumMargin(|all|);
  }

  /** Survivors still form a quorum exactly when no more than the margin are lost. */
  lemma SurvivorsIff<T>(all: set<T>, lost: set<T>)
    requires all != {} && lost <= all
    ensures |all - lost| >= Quorum(|all|) <==> |lost| <= (|all| - 1) / 3
  {
    assert (all - lost) + lost == all;
    assert |all| == |all - lost| + |lost|;
    QuorumMargin(|all|);
  }

  // ---------------------------------------------------------------- scenarios

  datatype Consensus = Continues | QuorumLost

  datatype StorageState = Available | Degraded | DurabilityUnmet | PublicationUnavailable

  datatype Loss = ValidatorLoss | GroupLoss | MachineLoss | PrimaryLoss | PeerLoss

  datatype Scenario = Scenario(loss: Loss, target: Id, consensus: Consensus, primaryLost: bool, copyLost: bool,
                               storage: StorageState, validatorsLeft: int, peersLeft: int)

  /** What is counted of a deployment and what its storage policy asks for. */
  datatype Totals = Totals(validators: nat, peers: nat, publishAfter: nat, target: nat)

  function StorageAfter(t: Totals, lost: nat): StorageState {
    if t.peers - lost < t.publishAfter then PublicationUnavailable
    else if t.peers - lost < t.target then DurabilityUnmet
    else if lost > 0 then Degraded
    else Available
  }

  function ScenarioFor(t: Totals, loss: Loss, target: Id, validators: nat, peers: nat, primaryLost: bool,
                       observers: nat): Scenario {
    Scenario(loss, target, if t.validators - validators >= Quorum(t.validators) then Continues else QuorumLost,
             primaryLost, observers > 0, StorageAfter(t, peers), t.validators - validators, t.peers - peers)
  }

  /** A resolved inventory: the group definitions it was resolved with, and the groups of the plan built from it. */
  datatype Deployment = Deployment(services: seq<Service>, definitions: seq<Groups.Definition>, groups: seq<Group>,
                                   primary: Service, publishAfter: nat, target: nat)

  function OfKind(services: seq<Service>, kind: ServiceType): (r: seq<Service>)
    ensures forall s :: s in r <==> s in services && s.kind == kind
  {
    if services == [] then []
    else
      var n := |services| - 1;
      assert services == services[..n] + [services[n]];
      OfKind(services[..n], kind) + (if services[n].kind == kind then [services[n]] else [])
  }

  function MachineKey(): Service -> Id {
    (s: Service) => s.machine
  }

  /** `{service: group for group in groups for service in group}` */
  function GroupIndex(groups: seq<Group>): map<Id, Id> {
    if groups == [] then map[]
    else
      var g := groups[|groups| - 1];
      GroupIndex(groups[..|groups| - 1]) + Constant(ToSet(g.services), g.id)
  }

  function GroupKey(groups: seq<Group>): Service -> Id {
    var index := GroupIndex(groups);
    (s: Service) => if s.id in index then index[s.id] else s.id
  }

  function TotalsOf(d: Deployment): Totals {
    Totals(|OfKind(d.services, BesuValidator)|, |OfKind(d.services, IpfsKubo)|, d.publishAfter, d.target)
  }

  function ValidatorScenarios(d: Deployment): (r: seq<Scenario>)
    ensures |r| == |OfKind(d.services, BesuValidator)|
    ensures forall i :: 0 <= i < |r| ==>
              r[i] == ScenarioFor(TotalsOf(d), ValidatorLoss, OfKind(d.services, BesuValidator)[i].id, 1, 0, false, 0)
  {
    var validators := OfKind(d.services, BesuValidator);
    seq(|validators|, i requires 0 <= i < |validators| =>
      ScenarioFor(TotalsOf(d), ValidatorLoss, validators[i].id, 1, 0, false, 0))
  }

  function GroupScenarios(d: Deployment, keys: seq<Id>): (r: seq<Scenario>)
    ensures |r| == |keys|
    ensures forall i :: 0 <= i < |r| ==>
              r[i] == ScenarioFor(TotalsOf(d), GroupLoss, keys[i],
                  Count(OfKind(d.services, BesuValidator), GroupKey(d.groups), keys[i]), 0, false, 0)
  {
    seq(|keys|, i requires 0 <= i < |keys| =>
      ScenarioFor(TotalsOf(d), GroupLoss, keys[i],
          Count(OfKind(d.services, BesuValidator), GroupKey(d.groups), keys[i]), 0, false, 0))
  }

  function MachineScenario(d: Deployment, machine: Id): Scenario {
    ScenarioFor(TotalsOf(d), MachineLoss, machine, Count(OfKind(d.services, BesuValidator), MachineKey(), machine),
                Count(OfKind(d.services, IpfsKubo), MachineKey(), machine), d.primary.machine == machine,
                Count(OfKind(d.services, BesuObserver), MachineKey(), machine))
  }

  function PeerScenarios(d: Deployment): (r: seq<Scenario>)
    ensures |r| == |OfKind(d.services, IpfsKubo)|
    ensures forall i :: 0 <= i < |r| ==>
            r[i] == ScenarioFor(TotalsOf(d), PeerLoss, OfKind(d.services, IpfsKubo)[i].id, 0, 1, false, 0)
  {
    var peers := OfKind(d.services, IpfsKubo);
    seq(|peers|, i requires 0 <= i < |peers| => ScenarioFor(TotalsOf(d), PeerLoss, peers[i].id, 0, 1, false, 0))
  }

  /** Validators, observers and storage peers. */
  function Counted(services: seq<Service>): seq<Service> {
    OfKind(services, BesuValidator) + OfKind(services, BesuObserver) + OfKind(services, IpfsKubo)
  }

  /** The machines of validators, observers and storage peers, and the primary RPC's, by name. */
  function ScenarioMachines(d: Deployment): seq<Id> {
    SortBy(Groups.Deduplicate(Keys(Counted(d.services), MachineKey()) + [d.primary.machine]), ByName)
  }

  /** A shared machine, a machine or a group that takes the quorum with it, storage peers that share a machine. */
  datatype Warning = OneMachine | MachineBreaks(machine: Id) | GroupBreaks(group: Id) | SharedStorage

  datatype Report = Report(
    validators: nat, quorum: nat, tolerated: int, primary: Id, validatorGroups: Tally, validatorMachines: Tally,
    observerGroups: Tally, storageMachines: Tally, copies: nat, peers: nat, publishAfter: nat, target: nat,
    scenarios: seq<Scenario>, warnings: seq<Warning>)

  function MachineScenarios(d: Deployment, machines: seq<Id>): (r: seq<Scenario>)
    ensures |r| == |machines| && forall i :: 0 <= i < |r| ==> r[i] == MachineScenario(d, machines[i])
  {
    seq(|machines|, i requires 0 <= i < |machines| => MachineScenario(d, machines[i]))
  }

  /** The scenarios of a deployment, in the order they are reported. */
  function Scenarios(d: Deployment): seq<Scenario> {
    ValidatorScenarios(d)
    + GroupScenarios(d, Groups.Deduplicate(Keys(OfKind(d.services, BesuValidator), GroupKey(d.groups))))
    + MachineScenarios(d, ScenarioMachines(d))
    + [ScenarioFor(TotalsOf(d), PrimaryLoss, d.primary.id, 0, 0, true, 0)]
    + PeerScenarios(d)
  }

  /** The loop over machines. */
  method LoseMachines(d: Deployment, machines: seq<Id>, validators: Tally, peers: Tally, observers: Tally)
    returns (r: seq<Scenario>)
    requires Counts(validators, OfKind(d.services, BesuValidator), MachineKey())
    requires Counts(peers, OfKind(d.services, IpfsKubo), MachineKey())
    requires Counts(observers, OfKind(d.services, BesuObserver), MachineKey())
    ensures r == MachineScenarios(d, machines)
  {
    r := [];
    for n := 0 to |machines|
      invariant |r| == n && forall i :: 0 <= i < n ==> r[i] == MachineScenario(d, machines[i])
    {
      var m := machines[n];
      r := r + [ScenarioFor(TotalsOf(d), MachineLoss, m, At(validators, m), At(peers, m), d.primary.machine == m,
          At(observers, m))];
    }
  }

  /** What the scenarios that lose the quorum are about, in order. */
  function Breaking(scenarios: seq<Scenario>): seq<Id> {
    if scenarios == [] then []
    else
      var n := |scenarios| - 1;
      Breaking(scenarios[..n]) + (if scenarios[n].consensus == QuorumLost then [scenarios[n].target] else [])
  }

  /** The scenarios lose what the tally counts for each key. */
  ghost predicate Lose(scenarios: seq<Scenario>, t: Tally, validators: nat) {
    |scenarios| == |t.keys| && forall i :: 0 <= i < |scenarios| ==>
      scenarios[i].target == t.keys[i] &&
          (scenarios[i].consensus == QuorumLost <==> validators - At(t, t.keys[i]) < Quorum(validators))
  }

  /** The keys whose loss leaves fewer validators than the quorum. */
  method QuorumBreakers(t: Tally, validators: nat, ghost scenarios: seq<Scenario>) returns (r: seq<Id>)
    requires Lose(scenarios, t, validators)
    ensures r == Breaking(scenarios)
  {
    r := [];
    for n := 0 to |t.keys|
      invariant r == Breaking(scenarios[..n])
    {
      assert scenarios[..n + 1][..n] == scenarios[..n];
      if validators - At(t, t.keys[n]) < Quorum(validators) {
        r := r + [t.keys[n]];
      }
    }
    assert scenarios[..|scenarios|] == scenarios;
  }

  function MachineWarnings(machines: seq<Id>): (r: seq<Warning>)
    ensures |r| == |machines| && forall i :: 0 <= i < |r| ==> r[i] == MachineBreaks(machines[i])
  {
    seq(|machines|, i requires 0 <= i < |machines| => MachineBreaks(machines[i]))
  }

  function GroupWarnings(groups: seq<Id>): (r: seq<Warning>)
    ensures |r| == |groups| && forall i :: 0 <= i < |r| ==> r[i] == GroupBreaks(groups[i])
  {
    seq(|groups|, i requires 0 <= i < |groups| => GroupBreaks(groups[i]))
  }

  /** The warnings in the order they are reported; those about the quorum repeat the scenarios that lose it. */
  function WarningsFor(d: Deployment, machines: seq<Id>, groups: seq<Id>, storage: seq<Id>): seq<Warning> {
    (if |machines| == 1 then [OneMachine] else [])
    + MachineWarnings(Breaking(MachineScenarios(d, machines))) + GroupWarnings(Breaking(GroupScenarios(d, groups)))
    + (if |storage| < TotalsOf(d).peers then [SharedStorage] else [])
  }

  /** The warnings drawn from the counts. */
  method Warn(d: Deployment, groups: Tally, machines: Tally, storage: Tally) returns (r: seq<Warning>)
    requires Counts(groups, OfKind(d.services, BesuValidator), GroupKey(d.groups))
    requires Counts(machines, OfKind(d.services, BesuValidator), MachineKey())
    ensures r == WarningsFor(d, machines.keys, groups.keys, storage.keys)
  {
    var validators := |OfKind(d.services, BesuValidator)|;
    var lostMachines := QuorumBreakers(machines, validators, MachineScenarios(d, machines.keys));
    var lostGroups := QuorumBreakers(groups, validators, GroupScenarios(d, groups.keys));
    r := (if |machines.keys| == 1 then [OneMachine] else []) + MachineWarnings(lostMachines) + GroupWarnings(lostGroups)
      + (if |storage.keys| < |OfKind(d.services, IpfsKubo)| then [SharedStorage] else []);
  }

  lemma {:induction false} BreakingMembers(scenarios: seq<Scenario>, k: Id)
    ensures k in Breaking(scenarios) <==> exists f :: f in scenarios && f.consensus == QuorumLost && f.target == k
  {
    if scenarios != [] {
      var n := |scenarios| - 1;
      BreakingMembers(scenarios[..n], k);
      assert scenarios == scenarios[..n] + [scenarios[n]];
    }
  }

  /**
   * A machine or group of validators is warned about exactly when the report has a scenario in
   * which its loss stops consensus.
   */
  lemma WarnedIff(d: Deployment, machines: seq<Id>, groups: seq<Id>, storage: seq<Id>, k: Id)
    ensures MachineBreaks(k) in WarningsFor(d, machines, groups, storage) <==>
            k in machines && MachineScenario(d, k).consensus == QuorumLost
    ensures GroupBreaks(k) in WarningsFor(d, machines, groups, storage) <==>
            k in groups && TotalsOf(d).validators - Count(OfKind(d.services, BesuValidator), GroupKey(d.groups), k) <
                Quorum(TotalsOf(d).validators)
    ensures OneMachine in WarningsFor(d, machines, groups, storage) <==> |machines| == 1
    ensures SharedStorage in WarningsFor(d, machines, groups, storage) <==> |storage| < TotalsOf(d).peers
  {
    BreakingMachines(d, machines, k);
    BreakingGroups(d, groups, k);
    var ms, gs := Breaking(MachineScenarios(d, machines)), Breaking(GroupScenarios(d, groups));
    WarningIn(|machines| == 1, ms, gs, |storage| < TotalsOf(d).peers, k);
  }

  lemma WarningIn(one: bool, machines: seq<Id>, groups: seq<Id>, shared: bool, k: Id)
    ensures var r := (if one then [OneMachine] else []) + MachineWarnings(machines) + GroupWarnings(groups) +
            (if shared then [SharedStorage] else []);
            && (MachineBreaks(k) in r <==> k in machines) && (GroupBreaks(k) in r <==> k in groups)
            && (OneMachine in r <==> one) && (SharedStorage in r <==> shared)
  {
    WarningOf(machines, groups, k);
  }

  lemma WarningOf(machines: seq<Id>, groups: seq<Id>, k: Id)
    ensures MachineBreaks(k) in MachineWarnings(machines) <==> k in machines
    ensures GroupBreaks(k) in GroupWarnings(groups) <==> k in groups
    ensures forall w :: w in MachineWarnings(machines) ==> w.MachineBreaks?
    ensures forall w :: w in GroupWarnings(groups) ==> w.GroupBreaks?
  {
    if k in machines {
      var i :| 0 <= i < |machines| && machines[i] == k;
      assert MachineWarnings(machines)[i] == MachineBreaks(k);
    }
    if k in groups {
      var i :| 0 <= i < |groups| && groups[i] == k;
      assert GroupWarnings(groups)[i] == GroupBreaks(k);
    }
  }

  lemma BreakingMachines(d: Deployment, machines: seq<Id>, k: Id)
    ensures k in Breaking(MachineScenarios(d, machines)) <==>
            k in machines && MachineScenario(d, k).consensus == QuorumLost
  {
    var r := MachineScenarios(d, machines);
    BreakingMembers(r, k);
    if k in machines {
      var i :| 0 <= i < |machines| && machines[i] == k;
      assert r[i] == MachineScenario(d, k) && r[i] in r;
    }
    if f :| f in r && f.target == k {
      var i :| 0 <= i < |r| && r[i] == f;
      assert machines[i] in machines;
    }
  }

  lemma BreakingGroups(d: Deployment, groups: seq<Id>, k: Id)
    ensures k in Breaking(GroupScenarios(d, groups)) <==>
            k in groups && TotalsOf(d).validators - Count(OfKind(d.services, BesuValidator), GroupKey(d.groups), k) <
                Quorum(TotalsOf(d).validators)
  {
    var r := GroupScenarios(d, groups);
    BreakingMembers(r, k);
    if k in groups {
      var i :| 0 <= i < |groups| && groups[i] == k;
      assert r[i].target == k && r[i] in r;
    }
    if f :| f in r && f.target == k {
      var i :| 0 <= i < |r| && r[i] == f;
      assert groups[i] in groups;
    }
  }

  // ---------------------------------------------------------------- what the scenarios say

  /** Consensus continues with a quorum left; storage is judged by the peers left against both replica counts. */
  ghost predicate Judged(d: Deployment, validators: nat, peers: nat, f: Scenario) {
    && (f.consensus == Continues <==> f.validatorsLeft >= Quorum(validators))
    && (f.storage == PublicationUnavailable <==> f.peersLeft < d.publishAfter)
    && (f.storage == DurabilityUnmet <==> d.publishAfter <= f.peersLeft < d.target)
    && (f.storage == Degraded <==> f.peersLeft >= d.publishAfter && f.peersLeft >= d.target && f.peersLeft != peers)
    && (f.storage == Available <==> f.peersLeft >= d.publishAfter && f.peersLeft >= d.target && f.peersLeft == peers)
  }

  /** What is left after the loss, and what else goes with it. */
  ghost predicate Loses(d: Deployment, validators: nat, peers: nat, f: Scenario) {
    match f.loss
    case ValidatorLoss =>
      && (exists s :: s in d.services && s.kind == BesuValidator && s.id == f.target)
      && f.validatorsLeft == validators - 1 && f.peersLeft == peers && !f.primaryLost && !f.copyLost
    case GroupLoss =>
      && f.validatorsLeft == validators - Count(OfKind(d.services, BesuValidator), GroupKey(d.groups), f.target)
      && f.validatorsLeft < validators && f.peersLeft == peers && !f.primaryLost && !f.copyLost
    case MachineLoss =>
      && f.validatorsLeft == validators - Count(OfKind(d.services, BesuValidator), MachineKey(), f.target)
      && f.peersLeft == peers - Count(OfKind(d.services, IpfsKubo), MachineKey(), f.target)
      && (f.primaryLost <==> d.primary.machine == f.target)
      && (f.copyLost <==> exists s :: s in d.services && s.kind == BesuObserver && s.machine == f.target)
    case PrimaryLoss =>
      f.target == d.primary.id && f.validatorsLeft == validators && f.peersLeft == peers && f.primaryLost && !f.copyLost
    case PeerLoss =>
      && (exists s :: s in d.services && s.kind == IpfsKubo && s.id == f.target)
      && f.validatorsLeft == validators && f.peersLeft == peers - 1 && !f.primaryLost && !f.copyLost
  }

  lemma ScenarioIsJudged(d: Deployment, loss: Loss, target: Id, validators: nat, peers: nat, primary: bool,
                         observers: nat)
    requires peers <= TotalsOf(d).peers
    ensures Judged(d, TotalsOf(d).validators, TotalsOf(d).peers,
                   ScenarioFor(TotalsOf(d), loss, target, validators, peers, primary, observers))
  {
  }

  lemma ValidatorScenarioMeans(d: Deployment, f: Scenario)
    requires f in ValidatorScenarios(d)
    ensures Judged(d, TotalsOf(d).validators, TotalsOf(d).peers, f) &&
            Loses(d, TotalsOf(d).validators, TotalsOf(d).peers, f)
  {
    var validators := OfKind(d.services, BesuValidator);
    var i :| 0 <= i < |validators| && ValidatorScenarios(d)[i] == f;
    assert validators[i] in validators;
    ScenarioIsJudged(d, ValidatorLoss, validators[i].id, 1, 0, false, 0);
  }

  lemma GroupScenarioMeans(d: Deployment, keys: seq<Id>, f: Scenario)
    requires keys == Groups.Deduplicate(Keys(OfKind(d.services, BesuValidator), GroupKey(d.groups))) &&
             f in GroupScenarios(d, keys)
    ensures Judged(d, TotalsOf(d).validators, TotalsOf(d).peers, f) &&
            Loses(d, TotalsOf(d).validators, TotalsOf(d).peers, f)
  {
    var validators, key := OfKind(d.services, BesuValidator), GroupKey(d.groups);
    var i :| 0 <= i < |keys| && GroupScenarios(d, keys)[i] == f;
    assert keys[i] in Keys(validators, key);
    var j :| 0 <= j < |validators| && Keys(validators, key)[j] == keys[i];
    assert validators[j] in validators;
    CountPositive(validators, key, keys[i]);
    ScenarioIsJudged(d, GroupLoss, keys[i], Count(validators, key, keys[i]), 0, false, 0);
  }

  lemma MachineScenarioMeans(d: Deployment, machine: Id)
    ensures Judged(d, TotalsOf(d).validators, TotalsOf(d).peers, MachineScenario(d, machine))
    ensures Loses(d, TotalsOf(d).validators, TotalsOf(d).peers, MachineScenario(d, machine))
  {
    var observers := OfKind(d.services, BesuObserver);
    CountPositive(observers, MachineKey(), machine);
    ScenarioIsJudged(d, MachineLoss, machine, Count(OfKind(d.services, BesuValidator), MachineKey(), machine),
                     Count(OfKind(d.services, IpfsKubo), MachineKey(), machine), d.primary.machine == machine,
                     Count(observers, MachineKey(), machine));
    if s :| s in observers && MachineKey()(s) == machine { assert s in d.services && s.machine == machine; }
    if s :| s in d.services && s.kind == BesuObserver && s.machine == machine {
      assert s in observers && MachineKey()(s) == machine;
    }
  }

  lemma PeerScenarioMeans(d: Deployment, f: Scenario)
    requires f in PeerScenarios(d)
    ensures Judged(d, TotalsOf(d).validators, TotalsOf(d).peers, f) &&
            Loses(d, TotalsOf(d).validators, TotalsOf(d).peers, f)
  {
    var peers := OfKind(d.services, IpfsKubo);
    var i :| 0 <= i < |peers| && PeerScenarios(d)[i] == f;
    assert peers[i] in peers;
    ScenarioIsJudged(d, PeerLoss, peers[i].id, 0, 1, false, 0);
  }

  lemma OneOfFive(a: seq<Scenario>, b: seq<Scenario>, c: seq<Scenario>, x: Scenario, e: seq<Scenario>, f: Scenario)
    ensures f in a + b + c + [x] + e <==> f in a || f in b || f in c || f == x || f in e
  {
  }

  lemma SomeMachineScenarioMeans(d: Deployment, f: Scenario)
    requires f in MachineScenarios(d, ScenarioMachines(d))
    ensures Judged(d, TotalsOf(d).validators, TotalsOf(d).peers, f) &&
            Loses(d, TotalsOf(d).validators, TotalsOf(d).peers, f)
  {
    var i :| 0 <= i < |ScenarioMachines(d)| && MachineScenarios(d, ScenarioMachines(d))[i] == f;
    MachineScenarioMeans(d, ScenarioMachines(d)[i]);
  }

  lemma PrimaryScenarioMeans(d: Deployment, f: Scenario)
    requires f == ScenarioFor(TotalsOf(d), PrimaryLoss, d.primary.id, 0, 0, true, 0)
    ensures Judged(d, TotalsOf(d).validators, TotalsOf(d).peers, f) &&
            Loses(d, TotalsOf(d).validators, TotalsOf(d).peers, f)
  {
    ScenarioIsJudged(d, PrimaryLoss, d.primary.id, 0, 0, true, 0);
  }

  /** Every reported scenario says what is left, and judges it by the numbers. */
  lemma ScenarioMeans(d: Deployment, f: Scenario)
    requires f in Scenarios(d)
    ensures Judged(d, TotalsOf(d).validators, TotalsOf(d).peers, f) &&
            Loses(d, TotalsOf(d).validators, TotalsOf(d).peers, f)
  {
    var keys := Groups.Deduplicate(Keys(OfKind(d.services, BesuValidator), GroupKey(d.groups)));
    OneOfFive(ValidatorScenarios(d), GroupScenarios(d, keys), MachineScenarios(d, ScenarioMachines(d)),
              ScenarioFor(TotalsOf(d), PrimaryLoss, d.primary.id, 0, 0, true, 0), PeerScenarios(d), f);
    if f in ValidatorScenarios(d) {
      ValidatorScenarioMeans(d, f);
    } else if f in GroupScenarios(d, keys) {
      GroupScenarioMeans(d, keys, f);
    } else if f in MachineScenarios(d, ScenarioMachines(d)) {
      SomeMachineScenarioMeans(d, f);
    } else if f in PeerScenarios(d) {
      PeerScenarioMeans(d, f);
    } else {
      PrimaryScenarioMeans(d, f);
    }
  }

  /** The report has the loss of `target`. */
  ghost predicate Covers(r: seq<Scenario>, loss: Loss, target: Id) {
    exists f :: f in r && f.loss == loss && f.target == target
  }

  /**
   * Every validator, peer, group of a validator and machine of a counted service has its scenario,
   * and so has the primary.
   */
  lemma ScenariosCover(d: Deployment, s: Service)
    requires s in d.services
    ensures s.kind == BesuValidator ==> Covers(Scenarios(d), ValidatorLoss, s.id)
    ensures s.kind == BesuValidator ==> Covers(Scenarios(d), GroupLoss, GroupKey(d.groups)(s))
    ensures s.kind == BesuValidator || s.kind == BesuObserver || s.kind == IpfsKubo ==>
            Covers(Scenarios(d), MachineLoss, s.machine)
    ensures s.kind == IpfsKubo ==> Covers(Scenarios(d), PeerLoss, s.id)
  {
    CoversValidator(d, s);
    if s.kind == BesuValidator || s.kind == BesuObserver || s.kind == IpfsKubo { CoversMachine(d, s.machine, s); }
    if s.kind == IpfsKubo {
      var peers := OfKind(d.services, IpfsKubo);
      var i :| 0 <= i < |peers| && peers[i] == s;
      assert PeerScenarios(d)[i] in PeerScenarios(d);
    }
  }

  lemma CoversValidator(d: Deployment, s: Service)
    requires s in d.services
    ensures s.kind == BesuValidator ==>
      Covers(Scenarios(d), ValidatorLoss, s.id) && Covers(Scenarios(d), GroupLoss, GroupKey(d.groups)(s))
  {
    if s.kind == BesuValidator {
      var validators, key := OfKind(d.services, BesuValidator), GroupKey(d.groups);
      var i :| 0 <= i < |validators| && validators[i] == s;
      assert ValidatorScenarios(d)[i] in ValidatorScenarios(d);
      var keys := Groups.Deduplicate(Keys(validators, key));
      assert Keys(validators, key)[i] in keys;
      var j :| 0 <= j < |keys| && keys[j] == key(s);
      assert GroupScenarios(d, keys)[j] in GroupScenarios(d, keys);
    }
  }

  lemma CoversMachine(d: Deployment, machine: Id, s: Service)
    requires s in d.services && s.machine == machine
    requires s.kind == BesuValidator || s.kind == BesuObserver || s.kind == IpfsKubo
    ensures Covers(Scenarios(d), MachineLoss, machine)
  {
    var counted := Counted(d.services);
    assert s in counted;
    var i :| 0 <= i < |counted| && counted[i] == s;
    assert Keys(counted, MachineKey())[i] == machine;
    var all := Keys(counted, MachineKey()) + [d.primary.machine];
    assert all[i] == machine;
    ReportsMachine(d, machine);
  }

  lemma ReportsMachine(d: Deployment, machine: Id)
    requires machine in Keys(Counted(d.services), MachineKey()) + [d.primary.machine]
    ensures Covers(Scenarios(d), MachineLoss, machine)
  {
    SortMembers(Groups.Deduplicate(Keys(Counted(d.services), MachineKey()) + [d.primary.machine]), ByName);
    var machines := ScenarioMachines(d);
    assert machine in machines;
    var i :| 0 <= i < |machines| && machines[i] == machine;
    assert MachineScenarios(d, machines)[i] in MachineScenarios(d, machines);
  }

  lemma PrimaryIsCovered(d: Deployment)
    ensures Covers(Scenarios(d), PrimaryLoss, d.primary.id) && Covers(Scenarios(d), MachineLoss, d.primary.machine)
  {
    ReportsMachine(d, d.primary.machine);
    assert ScenarioFor(TotalsOf(d), PrimaryLoss, d.primary.id, 0, 0, true, 0) in Scenarios(d);
  }

  /** `analyze`: quorum and failure domains of a resolved deployment. */
  method Analyze(d: Deployment) returns (r: Report)
    ensures r.validators == TotalsOf(d).validators && r.quorum == Quorum(r.validators) &&
            r.tolerated == r.validators - r.quorum
    ensures r.primary == d.primary.id && r.peers == TotalsOf(d).peers && r.publishAfter == d.publishAfter &&
            r.target == d.target
    ensures r.copies == |OfKind(d.services, BesuValidator)| + |OfKind(d.services, BesuObserver)| +
            |OfKind(d.services, BesuRpc)|
    ensures Counts(r.validatorGroups, OfKind(d.services, BesuValidator), GroupKey(d.groups))
    ensures Counts(r.validatorMachines, OfKind(d.services, BesuValidator), MachineKey())
    ensures Counts(r.observerGroups, OfKind(d.services, BesuObserver), GroupKey(d.groups))
    ensures Counts(r.storageMachines, OfKind(d.services, IpfsKubo), MachineKey())
    ensures r.scenarios == Scenarios(d)
    ensures forall f :: f in r.scenarios ==> Judged(d, r.validators, r.peers, f) && Loses(d, r.validators, r.peers, f)
    ensures r.warnings == WarningsFor(d, r.validatorMachines.keys, r.validatorGroups.keys, r.storageMachines.keys)
  {
    var validators, observers, peers := OfKind(d.services, BesuValidator), OfKind(d.services, BesuObserver),
        OfKind(d.services, IpfsKubo);
    var validatorGroups := CountBy(validators, GroupKey(d.groups));
    var validatorMachines := CountBy(validators, MachineKey());
    var observerGroups := CountBy(observers, GroupKey(d.groups));
    var observerMachines := CountBy(observers, MachineKey());
    var storageMachines := CountBy(peers, MachineKey());
    var lost := LoseMachines(d, ScenarioMachines(d), validatorMachines, storageMachines, observerMachines);
    var scenarios := ValidatorScenarios(d) + GroupScenarios(d, validatorGroups.keys) + lost
      + [ScenarioFor(TotalsOf(d), PrimaryLoss, d.primary.id, 0, 0, true, 0)] + PeerScenarios(d);
    forall f | f in scenarios ensures Judged(d, |validators|, |peers|, f) && Loses(d, |validators|, |peers|, f) {
      ScenarioMeans(d, f);
    }
    var warnings := Warn(d, validatorGroups, validatorMachines, storageMachines);
    r := Report(|validators|, Quorum(|validators|), |validators| - Quorum(|validators|), d.primary.id, validatorGroups,
                validatorMachines, observerGroups, storageMachines,
                |validators| + |observers| + |OfKind(d.services, BesuRpc)|, |peers|,
                d.publishAfter, d.target, scenarios, warnings);
  }
}
