/** Assignment of services to logical groups: explicit lists, member lookup, adoption, fallback. */
module Groups {
  import opened Ordering
  import opened Model

  /** One entry of the inventory's `groups` object. */
  datatype Definition = Definition(id: Id, kind: GroupKind, machine: Id, members: seq<Id>, services: Option<seq<Id>>)

  // ---------------------------------------------------------------- which services a definition lists

  predicate Matches(s: Service, member: Id) {
    s.configuration.nodeId == Some(member) || s.configuration.peerName == Some(member)
  }

  function MatchingIds(services: seq<Service>, member: Id): seq<Id> {
    if services == [] then []
    else (if Matches(services[0], member) then [services[0].id] else []) + MatchingIds(services[1..], member)
  }

  predicate Known(services: seq<Service>, id: Id) {
    exists s :: s in services && s.id == id
  }

  /** What one member names: a service, or else a chain node or storage peer. */
  function Found(services: seq<Service>, member: Id): seq<Id> {
    if Known(services, member) then [member] else MatchingIds(services, member)
  }

  /** Members name services, chain nodes or storage peers; an unknown member is an error. */
  function Lookup(services: seq<Service>, members: seq<Id>): Option<seq<Id>> {
    if members == [] then Some([])
    else
      var found := Found(services, members[0]);
      var rest := Lookup(services, members[1..]);
      if found == [] || rest.None? then None else Some(found + rest.value)
  }

  function Listed(services: seq<Service>, d: Definition): Option<seq<Id>> {
    match d.services
    case Some(ids) => if forall id :: id in ids ==> Known(services, id) then Some(ids) else None
    case None => Lookup(services, d.members)
  }

  predicate KindAllows(kind: GroupKind, t: ServiceType) {
    match kind
    case Validators => t == BesuValidator
    case Observers => t == BesuObserver
    case Storage => t == IpfsKubo || t == IpfsCluster
    case _ => true
  }

  /** A definition is well formed on its own. */
  predicate Sound(services: seq<Service>, machines: set<Id>, d: Definition) {
    && d.kind != Server && d.machine in machines && d.members != []
    && Listed(services, d).Some?
    && Listed(services, d).value != []
    && forall s :: s in services && s.id in Listed(services, d).value ==>
        KindAllows(d.kind, s.kind) && s.machine == d.machine
  }

  /** The group a definition yields before unlisted services are adopted. */
  function ExplicitGroup(services: seq<Service>, d: Definition): Group {
    Group(d.id, d.kind, d.machine, Deduplicate(d.members), Listed(services, d).GetOr<seq<Id>>([]))
  }

  ghost function Lists(services: seq<Service>, definitions: seq<Definition>): (r: seq<seq<Id>>)
    ensures |r| == |definitions|
  {
    seq(|definitions|, i requires 0 <= i < |definitions| => ExplicitGroup(services, definitions[i]).services)
  }

  /** The services no definition lists, in inventory order, that live on `machine`. */
  function Adopted(services: seq<Service>, listed: set<Id>, machine: Id): seq<Id> {
    if services == [] then []
    else
      var last := services[|services| - 1];
      Adopted(services[..|services| - 1], listed, machine)
      + (if last.id !in listed && last.machine == machine then [last.id] else [])
  }

  /** Exactly one definition is placed on `machine`. */
  ghost predicate OneGroupOn(definitions: seq<Definition>, machine: Id) {
    && (exists i :: 0 <= i < |definitions| && definitions[i].machine == machine)
    && (forall i, j :: 0 <= i < j < |definitions| ==>
        definitions[i].machine != machine || definitions[j].machine != machine)
  }

  /** What the inventory must satisfy for the groups to be accepted. */
  ghost predicate Acceptable(services: seq<Service>, machines: set<Id>, definitions: seq<Definition>) {
    && definitions != []
    && ExplicitOk(services, machines, definitions)
    && forall s :: s in services && s.id !in Flatten(Lists(services, definitions)) ==>
        OneGroupOn(definitions, s.machine)
  }

  // ---------------------------------------------------------------- the assignment

  /** The compatibility fallback: one group per machine. */
  function PerMachine(machines: seq<Machine>, services: seq<Service>): (r: seq<Group>)
    ensures |r| == |machines|
  {
    seq(|machines|, i requires 0 <= i < |machines| =>
      var here := Adopted(services, {}, machines[i].id);
      Group(machines[i].id, Server, machines[i].id, here, here))
  }

  /** `dict.fromkeys`: first occurrences only. */
  function Deduplicate(s: seq<Id>): (r: seq<Id>)
    ensures NoRepeats(s) ==> r == s
    ensures NoRepeats(r) && forall x :: x in r <==> x in s
  {
    if s == [] then []
    else
      var n := |s| - 1;
      var front := Deduplicate(s[..n]);
      assert s == s[..n] + [s[n]];
      if s[n] in s[..n] then front else front + [s[n]]
  }

  lemma {:induction false} RepeatInFlatten<T>(ss: seq<seq<T>>, n: nat)
    requires n <= |ss| && !NoRepeats(Flatten(ss[..n]))
    ensures !NoRepeats(Flatten(ss))
    decreases |ss| - n
  {
    if n < |ss| {
      assert ss[..n + 1] == ss[..n] + [ss[n]];
      FlattenSnoc(ss[..n], ss[n]);
      var front := Flatten(ss[..n]);
      var i, j :| 0 <= i < j < |front| && front[i] == front[j];
      assert Flatten(ss[..n + 1])[i] == Flatten(ss[..n + 1])[j];
      RepeatInFlatten(ss, n + 1);
    } else {
      assert ss[..n] == ss;
    }
  }

  /** Record the services of one definition; a service already assigned is a conflict. */
  method Assign(ids: seq<Id>, group: Id, owner: map<Id, Id>) returns (ok: bool, after: map<Id, Id>)
    ensures ok <==> NoRepeats(ids) && forall id :: id in ids ==> id !in owner
    ensures ok ==> after.Keys == owner.Keys + ToSet(ids)
  {
    after := owner;
    for n := 0 to |ids|
      invariant NoRepeats(ids[..n]) && forall id :: id in ids[..n] ==> id !in owner
      invariant after.Keys == owner.Keys + ToSet(ids[..n])
    {
      if ids[n] in after {
        if ids[n] in owner.Keys { assert ids[n] in ids; }
        else { assert ids[n] in ToSet(ids[..n]); }
        return false, after;
      }
      assert ids[..n + 1] == ids[..n] + [ids[n]];
      after := after[ids[n] := group];
    }
    assert ids[..|ids|] == ids;
    return true, after;
  }

  /** The first `n` definitions are sound, disjoint and turned into groups. */
  ghost predicate ExplicitTo(services: seq<Service>, machines: set<Id>, definitions: seq<Definition>,
                             owners: set<Id>, groups: seq<Group>, n: nat)
    requires n <= |definitions|
  {
    && (forall i :: 0 <= i < n ==> Sound(services, machines, definitions[i]))
    && NoRepeats(Flatten(Lists(services, definitions)[..n]))
    && owners == ToSet(Flatten(Lists(services, definitions)[..n]))
    && |groups| == n
    && forall i :: 0 <= i < n ==> groups[i] == ExplicitGroup(services, definitions[i])
  }

  ghost predicate ExplicitOk(services: seq<Service>, machines: set<Id>, definitions: seq<Definition>) {
    && (forall i :: 0 <= i < |definitions| ==> Sound(services, machines, definitions[i]))
    && NoRepeats(Flatten(Lists(services, definitions)))
  }

  lemma ExplicitStep(services: seq<Service>, machines: set<Id>, definitions: seq<Definition>,
                     owners: set<Id>, groups: seq<Group>, n: nat, group: Group)
    requires n < |definitions| && ExplicitTo(services, machines, definitions, owners, groups, n)
    requires Sound(services, machines, definitions[n]) && group == ExplicitGroup(services, definitions[n])
    ensures NoRepeats(group.services) && (forall id :: id in group.services ==> id !in owners) ==>
              ExplicitTo(services, machines, definitions, owners + ToSet(group.services), groups + [group], n + 1)
    ensures !(NoRepeats(group.services) && forall id :: id in group.services ==> id !in owners) ==>
              !ExplicitOk(services, machines, definitions)
  {
    var lists := Lists(services, definitions);
    ListsStep(lists, n);
    assert lists[n] == group.services;
    if !NoRepeats(Flatten(lists[..n + 1])) { RepeatInFlatten(lists, n + 1); }
  }

  /** Resolve explicit definitions into groups holding what each lists. */
  method ExplicitGroups(definitions: seq<Definition>, machines: set<Id>, services: seq<Service>)
    returns (r: Result<seq<Group>>, owner: map<Id, Id>)
    requires UniqueServices(services)
    ensures r.Ok? <==> ExplicitOk(services, machines, definitions)
    ensures r.Ok? ==> ExplicitTo(services, machines, definitions, owner.Keys, r.value, |definitions|)
  {
    owner := map[];
    var groups: seq<Group> := [];
    for n := 0 to |definitions|
      invariant ExplicitTo(services, machines, definitions, owner.Keys, groups, n)
    {
      var d := definitions[n];
      if !Sound(services, machines, d) {
        return Fail("invalid group definition"), owner;
      }
      var group := ExplicitGroup(services, d);
      var ok, after := Assign(group.services, d.id, owner);
      ExplicitStep(services, machines, definitions, owner.Keys, groups, n, group);
      if !ok {
        return Fail("service belongs to two groups"), owner;
      }
      owner := after;
      groups := groups + [group];
    }
    assert Lists(services, definitions)[..|definitions|] == Lists(services, definitions);
    return Ok(groups), owner;
  }

  lemma ListsStep(lists: seq<seq<Id>>, n: nat)
    requires n < |lists| && NoRepeats(Flatten(lists[..n]))
    ensures NoRepeats(Flatten(lists[..n + 1])) <==>
              NoRepeats(lists[n]) && forall id :: id in lists[n] ==> id !in ToSet(Flatten(lists[..n]))
    ensures ToSet(Flatten(lists[..n + 1])) == ToSet(Flatten(lists[..n])) + ToSet(lists[n])
  {
    assert lists[..n + 1] == lists[..n] + [lists[n]];
    FlattenSnoc(lists[..n], lists[n]);
    AppendRepeats(Flatten(lists[..n]), lists[n]);
  }

  lemma AppendRepeats(a: seq<Id>, b: seq<Id>)
    requires NoRepeats(a)
    ensures NoRepeats(a + b) <==> NoRepeats(b) && forall id :: id in b ==> id !in ToSet(a)
    ensures ToSet(a + b) == ToSet(a) + ToSet(b)
  {
    var s := a + b;
    if NoRepeats(s) {
      forall i, j | 0 <= i < j < |b| ensures b[i] != b[j] {
        assert s[|a| + i] == b[i] && s[|a| + j] == b[j];
      }
      forall i, j | 0 <= i < |a| && 0 <= j < |b| ensures a[i] != b[j] {
        assert s[i] == a[i] && s[|a| + j] == b[j];
      }
    }
    if NoRepeats(b) && forall id :: id in b ==> id !in ToSet(a) {
      forall i, j | 0 <= i < j < |s| ensures s[i] != s[j] {
        if i < |a| <= j { assert s[j] in b && s[i] in a; }
      }
    }
  }

  // ---------------------------------------------------------------- adoption of unlisted services

  /** Indices of the groups on a machine, in order. */
  function GroupsOn(definitions: seq<Definition>, machine: Id): (r: seq<nat>)
    ensures forall k: nat :: k in r <==> k < |definitions| && definitions[k].machine == machine
    ensures |r| == 1 <==> OneGroupOn(definitions, machine)
  {
    if definitions == [] then []
    else
      var n := |definitions| - 1;
      var front := GroupsOn(definitions[..n], machine);
      assert |front| >= 1 ==> front[0] in front;
      if definitions[n].machine == machine then front + [n] else front
  }

  /** After `n` services, each group holds its list and what its machine has contributed so far. */
  ghost predicate FilledTo(mutable: seq<seq<Id>>, definitions: seq<Definition>, explicit: seq<Group>,
                           services: seq<Service>, listed: set<Id>, n: nat)
    requires |explicit| == |definitions| && n <= |services|
  {
    && |mutable| == |explicit|
    && forall i :: 0 <= i < |explicit| ==>
         mutable[i] == explicit[i].services + Adopted(services[..n], listed, definitions[i].machine)
  }

  lemma AdoptStep(before: seq<seq<Id>>, after: seq<seq<Id>>, definitions: seq<Definition>, explicit: seq<Group>,
                  services: seq<Service>, listed: set<Id>, n: nat)
    requires |explicit| == |definitions| && n < |services|
    requires FilledTo(before, definitions, explicit, services, listed, n) && |after| == |before|
    requires forall i :: 0 <= i < |before| ==>
      after[i] == before[i] +
          (if services[n].id !in listed && services[n].machine == definitions[i].machine then [services[n].id] else [])
    ensures FilledTo(after, definitions, explicit, services, listed, n + 1)
  {
    forall i | 0 <= i < |explicit|
      ensures after[i] == explicit[i].services + Adopted(services[..n + 1], listed, definitions[i].machine)
    {
      assert services[..n + 1][..n] == services[..n];
    }
  }

  /** Hand one service to the only group of its machine. */
  method AdoptOne(definitions: seq<Definition>, mutable: seq<seq<Id>>, s: Service) returns (r: Option<seq<seq<Id>>>)
    requires |mutable| == |definitions|
    ensures r.Some? <==> OneGroupOn(definitions, s.machine)
    ensures r.Some? ==> |r.value| == |mutable| && forall i :: 0 <= i < |mutable| ==>
              r.value[i] == mutable[i] + (if definitions[i].machine == s.machine then [s.id] else [])
  {
    var candidates := GroupsOn(definitions, s.machine);
    if |candidates| != 1 {
      return None;
    }
    var index := candidates[0];
    assert index in candidates;
    assert forall i: nat :: i < |definitions| && definitions[i].machine == s.machine ==> i in candidates;
    r := Some(mutable[index := mutable[index] + [s.id]]);
  }

  /** Hand every unlisted service to the only group of its machine, or fail. */
  method AdoptUnlisted(definitions: seq<Definition>, services: seq<Service>, owner: map<Id, Id>, explicit: seq<Group>)
    returns (r: Result<seq<Group>>)
    requires |explicit| == |definitions|
    ensures r.Ok? <==> forall s :: s in services && s.id !in owner ==> OneGroupOn(definitions, s.machine)
    ensures r.Ok? ==> |r.value| == |definitions|
    ensures r.Ok? ==> forall i :: 0 <= i < |definitions| ==>
              r.value[i] == explicit[i].(services := explicit[i].services +
                  Adopted(services, owner.Keys, definitions[i].machine))
  {
    var mutable: seq<seq<Id>> := seq(|explicit|, i requires 0 <= i < |explicit| => explicit[i].services);
    for n := 0 to |services|
      invariant FilledTo(mutable, definitions, explicit, services, owner.Keys, n)
      invariant forall k :: 0 <= k < n && services[k].id !in owner ==> OneGroupOn(definitions, services[k].machine)
    {
      var s := services[n];
      var before := mutable;
      if s.id !in owner {
        var adopted := AdoptOne(definitions, mutable, s);
        if adopted.None? {
          return Fail("groups do not assign service unambiguously");
        }
        mutable := adopted.value;
      }
      AdoptStep(before, mutable, definitions, explicit, services, owner.Keys, n);
    }
    assert services[..|services|] == services;
    r := Ok(seq(|explicit|, i requires 0 <= i < |explicit| => explicit[i].(services := mutable[i])));
  }

  /** The logical groups of an inventory. */
  method GroupsForInventory(definitions: Option<seq<Definition>>, machines: seq<Machine>, services: seq<Service>)
    returns (r: Result<seq<Group>>)
    requires UniqueServices(services)
    ensures definitions.None? ==> r == Ok(PerMachine(machines, services))
    ensures definitions.Some? ==> (r.Ok? <==> Acceptable(services, MachineIds(machines), definitions.value))
    ensures definitions.Some? && r.Ok? ==> GroupsAre(services, definitions.value, r.value)
    ensures definitions.Some? && r.Ok? ==>
      |r.value| == |definitions.value| && forall i :: 0 <= i < |r.value| ==> Defines(definitions.value[i], r.value[i])
  {
    if definitions.None? {
      return Ok(PerMachine(machines, services));
    }
    var ds := definitions.value;
    if ds == [] {
      return Fail("groups must be a non-empty object");
    }
    var explicit, owner := ExplicitGroups(ds, MachineIds(machines), services);
    assert Lists(services, ds)[..|ds|] == Lists(services, ds);
    if explicit.Fail? {
      return explicit;
    }
    r := AdoptUnlisted(ds, services, owner, explicit.value);
    if r.Ok? {
      forall i | 0 <= i < |ds| ensures Defines(ds[i], r.value[i]) {
        GroupsDefine(services, MachineIds(machines), ds, r.value, i);
      }
    }
  }

  function MachineIds(machines: seq<Machine>): set<Id> {
    set m | m in machines :: m.id
  }

  /** Each group holds what its definition lists, then the unlisted services of its machine. */
  ghost predicate GroupsAre(services: seq<Service>, definitions: seq<Definition>, groups: seq<Group>) {
    var lists := Lists(services, definitions);
    && |groups| == |definitions|
    && forall i :: 0 <= i < |definitions| ==>
         groups[i] == ExplicitGroup(services, definitions[i]).(services :=
                        lists[i] + Adopted(services, ToSet(Flatten(lists)), definitions[i].machine))
  }

  // ---------------------------------------------------------------- what a definition means

  /** The service a member names: by its id, or, when no service has that id, by its chain node or storage peer. */
  ghost predicate NamedBy(services: seq<Service>, member: Id, s: Service) {
    && s in services
    && if exists x :: x in services && x.id == member then s.id == member
       else s.configuration.nodeId == Some(member) || s.configuration.peerName == Some(member)
  }

  /** The service is on the definition's explicit list, or without one a member names it. */
  ghost predicate OnList(services: seq<Service>, d: Definition, s: Service) {
    && s in services
    && if d.services.Some? then s.id in d.services.value else exists m :: m in d.members && NamedBy(services, m, s)
  }

  /** The complaints about one definition. */
  ghost predicate DefinitionFault(services: seq<Service>, machines: set<Id>, d: Definition) {
    || d.kind == Server || d.machine !in machines || d.members == [] || d.services == Some([])
    || (d.services.Some? && exists id :: id in d.services.value && forall s :: s in services ==> s.id != id)
    || (d.services.None? && exists m :: m in d.members && forall s :: !NamedBy(services, m, s))
    || exists s :: OnList(services, d, s) && (
         || s.machine != d.machine
         || (d.kind == Validators && s.kind != BesuValidator) || (d.kind == Observers && s.kind != BesuObserver)
         || (d.kind == GroupKind.Storage && s.kind != IpfsKubo && s.kind != IpfsCluster))
  }

  lemma {:induction false} MatchingIdsAre(services: seq<Service>, member: Id, id: Id)
    ensures id in MatchingIds(services, member) <==>
            exists s :: s in services && s.id == id
              && (s.configuration.nodeId == Some(member) || s.configuration.peerName == Some(member))
  {
    if services != [] {
      MatchingIdsAre(services[1..], member, id);
      assert services == [services[0]] + services[1..];
    }
  }

  lemma MemberMeans(services: seq<Service>, member: Id, id: Id)
    ensures id in Found(services, member) <==>
            exists s :: NamedBy(services, member, s) && s.id == id
  {
    MatchingIdsAre(services, member, id);
  }

  lemma MemberResolves(services: seq<Service>, member: Id)
    ensures Found(services, member) != [] <==>
            exists s :: NamedBy(services, member, s)
  {
    var found := Found(services, member);
    if found != [] { MemberMeans(services, member, found[0]); }
    if s :| NamedBy(services, member, s) { MemberMeans(services, member, s.id); }
  }

  lemma {:induction false} LookupMeans(services: seq<Service>, members: seq<Id>)
    ensures Lookup(services, members).Some? <==> forall m :: m in members ==> exists s :: NamedBy(services, m, s)
    ensures Lookup(services, members).Some? ==> forall id :: id in Lookup(services, members).value <==>
              exists m, s :: m in members && NamedBy(services, m, s) && s.id == id
  {
    if members != [] {
      LookupMeans(services, members[1..]);
      MemberResolves(services, members[0]);
      assert members == [members[0]] + members[1..];
      forall id
        ensures id in Found(services, members[0]) <==> exists s :: NamedBy(services, members[0], s) && s.id == id
      {
        MemberMeans(services, members[0], id);
      }
      LookupResolves(services, members);
    }
  }

  lemma LookupResolves(services: seq<Service>, members: seq<Id>)
    requires members != []
    requires Found(services, members[0]) != [] <==> exists s :: NamedBy(services, members[0], s)
    requires Lookup(services, members[1..]).Some? <==> forall m :: m in members[1..] ==>
             exists s :: NamedBy(services, m, s)
    ensures Lookup(services, members).Some? <==> forall m :: m in members ==> exists s :: NamedBy(services, m, s)
  {
    assert members == [members[0]] + members[1..];
    assert forall m :: m in members <==> m == members[0] || m in members[1..];
    assert members[0] in members;
    if forall m :: m in members ==> exists s :: NamedBy(services, m, s) {
      forall m | m in members[1..] ensures exists s :: NamedBy(services, m, s) {
        assert m in members;
      }
    }
  }

  lemma ListedMeans(services: seq<Service>, d: Definition, s: Service)
    requires UniqueServices(services) && Listed(services, d).Some? && s in services
    ensures s.id in Listed(services, d).value <==> OnList(services, d, s)
  {
    LookupMeans(services, d.members);
    if m, x :| m in d.members && NamedBy(services, m, x) && x.id == s.id { assert x == s; }
  }

  lemma ListedIff(services: seq<Service>, d: Definition)
    ensures d.services.Some? ==>
      (Listed(services, d).Some? <==> !exists id :: id in d.services.value && forall s :: s in services ==> s.id != id)
    ensures d.services.None? ==>
      (Listed(services, d).Some? <==> !exists m :: m in d.members && forall s :: !NamedBy(services, m, s))
    ensures Listed(services, d).Some? && Listed(services, d).value == [] ==> d.services == Some([]) || d.members == []
  {
    LookupMeans(services, d.members);
    if d.services.None? && d.members != [] && Listed(services, d).Some? {
      assert d.members[0] in d.members;
      var s :| NamedBy(services, d.members[0], s);
      assert s.id in Lookup(services, d.members).value;
    }
  }

  lemma SoundIff(services: seq<Service>, machines: set<Id>, d: Definition)
    requires UniqueServices(services)
    ensures Sound(services, machines, d) <==> !DefinitionFault(services, machines, d)
  {
    ListedIff(services, d);
    if Listed(services, d).Some? {
      forall s | s in services ensures s.id in Listed(services, d).value <==> OnList(services, d, s) {
        ListedMeans(services, d, s);
      }
    }
  }

  /** Without definitions: one server group per machine, in order, with the machine's services in order. */
  lemma FallbackMeans(machines: seq<Machine>, services: seq<Service>, i: nat, j: nat, k: nat)
    requires UniqueServices(services) && i < |machines|
    ensures var g := PerMachine(machines, services)[i];
      && |PerMachine(machines, services)| == |machines|
      && g == Group(machines[i].id, Server, machines[i].id, g.services, g.services)
      && (forall id :: id in g.services <==> exists s :: s in services && s.id == id && s.machine == machines[i].id)
      && (j < k < |g.services| ==> exists a, b ::
            0 <= a < b < |services| && services[a].id == g.services[j] && services[b].id == g.services[k])
  {
    AdoptedMembers(services, {}, machines[i].id);
    if j < k < |Adopted(services, {}, machines[i].id)| { AdoptedInOrder(services, {}, machines[i].id, j, k); }
  }

  lemma {:induction false} AdoptedInOrder(services: seq<Service>, listed: set<Id>, machine: Id, j: nat, k: nat)
    requires j < k < |Adopted(services, listed, machine)|
    ensures exists a, b ::
      && 0 <= a < b < |services|
      && services[a].id == Adopted(services, listed, machine)[j] &&
          services[b].id == Adopted(services, listed, machine)[k]
  {
    var n := |services| - 1;
    var front := Adopted(services[..n], listed, machine);
    if k < |front| {
      AdoptedInOrder(services[..n], listed, machine, j, k);
      var a, b :| 0 <= a < b < n && services[..n][a].id == front[j] && services[..n][b].id == front[k];
      assert services[a].id == front[j] && services[b].id == front[k];
    } else {
      AdoptedFrom(services[..n], listed, machine, j);
      var a :| 0 <= a < n && services[..n][a].id == front[j];
      assert services[a].id == front[j] && services[n].id == Adopted(services, listed, machine)[k];
    }
  }

  lemma {:induction false} AdoptedFrom(services: seq<Service>, listed: set<Id>, machine: Id, j: nat)
    requires j < |Adopted(services, listed, machine)|
    ensures exists a :: 0 <= a < |services| && services[a].id == Adopted(services, listed, machine)[j]
  {
    var n := |services| - 1;
    if j < |Adopted(services[..n], listed, machine)| {
      AdoptedFrom(services[..n], listed, machine, j);
      var a :| 0 <= a < n && services[..n][a].id == Adopted(services[..n], listed, machine)[j];
      assert services[a].id == services[..n][a].id;
    } else {
      assert services[n].id == Adopted(services, listed, machine)[j];
    }
  }

  /** The group carries the definition's id, kind, machine, members in order, and first of all its explicit list. */
  ghost predicate Defines(d: Definition, g: Group) {
    && g.id == d.id && g.kind == d.kind && g.machine == d.machine && FirstSeen(d.members, g.members)
    && (d.services.Some? ==> d.services.value <= g.services)
  }

  /** Each element once, in the order of first occurrence. */
  ghost predicate FirstSeen(s: seq<Id>, r: seq<Id>) {
    && NoRepeats(r) && (forall x :: x in r <==> x in s)
    && forall i, j :: 0 <= i < j < |r| ==> exists k :: 0 <= k < |s| && s[k] == r[i] && r[j] !in s[..k + 1]
  }

  lemma {:induction false} DeduplicateIsFirstSeen(s: seq<Id>)
    ensures FirstSeen(s, Deduplicate(s))
  {
    if s != [] {
      var n := |s| - 1;
      DeduplicateIsFirstSeen(s[..n]);
      var front, r := Deduplicate(s[..n]), Deduplicate(s);
      forall i, j | 0 <= i < j < |r| ensures exists k :: 0 <= k < |s| && s[k] == r[i] && r[j] !in s[..k + 1] {
        if j < |front| {
          var k :| 0 <= k < n && s[..n][k] == front[i] && front[j] !in s[..n][..k + 1];
          assert s[..n][..k + 1] == s[..k + 1] && s[k] == r[i];
        } else {
          assert r[i] in s[..n] && r[j] == s[n] && s[n] !in s[..n];
          var k :| 0 <= k < n && s[..n][k] == r[i];
          assert s[k] == r[i] && forall x :: x in s[..k + 1] ==> x in s[..n];
        }
      }
    }
  }

  lemma GroupsDefine(services: seq<Service>, machines: set<Id>, definitions: seq<Definition>, groups: seq<Group>,
                     i: nat)
    requires ExplicitOk(services, machines, definitions) && GroupsAre(services, definitions, groups) &&
             i < |definitions|
    ensures Defines(definitions[i], groups[i])
  {
    DeduplicateIsFirstSeen(definitions[i].members);
    assert Sound(services, machines, definitions[i]);
  }

  // ---------------------------------------------------------------- groups partition services

  /** Every service is in exactly one group, on that group's machine, and groups hold nothing else. */
  ghost predicate Partition(services: seq<Service>, groups: seq<Group>) {
    && (forall s :: s in services ==> exists i :: 0 <= i < |groups| && s.id in groups[i].services)
    && (forall i, j, id ::
          0 <= i < |groups| && 0 <= j < |groups| && id in groups[i].services && id in groups[j].services ==> i == j)
    && (forall i :: 0 <= i < |groups| ==> NoRepeats(groups[i].services))
    && forall i, id :: 0 <= i < |groups| && id in groups[i].services ==> PlacedOn(services, id, groups[i].machine)
  }

  ghost predicate PlacedOn(services: seq<Service>, id: Id, machine: Id) {
    exists s :: s in services && s.id == id && s.machine == machine
  }

  lemma {:induction false} AdoptedMembers(services: seq<Service>, listed: set<Id>, machine: Id)
    requires UniqueServices(services)
    ensures forall id :: id in Adopted(services, listed, machine) <==> id !in listed && PlacedOn(services, id, machine)
    ensures NoRepeats(Adopted(services, listed, machine))
  {
    if services != [] {
      var n := |services| - 1;
      var front := services[..n];
      AdoptedMembers(front, listed, machine);
      assert services == front + [services[n]];
      forall id ensures PlacedOn(services, id, machine) <==>
                          PlacedOn(front, id, machine) || (services[n].id == id && services[n].machine == machine) {
        if PlacedOn(front, id, machine) {
          var s :| s in front && s.id == id && s.machine == machine;
          assert s in services;
        }
        if services[n].id == id && services[n].machine == machine { assert services[n] in services; }
      }
      assert !PlacedOn(front, services[n].id, machine);
    }
  }

  lemma {:induction false} MatchingIdsKnown(services: seq<Service>, member: Id)
    ensures forall id :: id in MatchingIds(services, member) ==> Known(services, id)
  {
    if services != [] {
      MatchingIdsKnown(services[1..], member);
      assert services == [services[0]] + services[1..];
      forall id | id in MatchingIds(services, member) ensures Known(services, id) {
        if id in MatchingIds(services[1..], member) {
          var s :| s in services[1..] && s.id == id;
          assert s in services;
        } else {
          assert services[0] in services;
        }
      }
    }
  }

  lemma {:induction false} LookupKnown(services: seq<Service>, members: seq<Id>)
    ensures Lookup(services, members).Some? ==>
              forall id :: id in Lookup(services, members).value ==> Known(services, id)
  {
    if members != [] {
      MatchingIdsKnown(services, members[0]);
      LookupKnown(services, members[1..]);
    }
  }

  lemma {:induction false} FlattenDisjoint(ss: seq<seq<Id>>)
    requires NoRepeats(Flatten(ss))
    ensures forall i :: 0 <= i < |ss| ==> NoRepeats(ss[i])
    ensures forall i, j, id :: 0 <= i < |ss| && 0 <= j < |ss| && id in ss[i] && id in ss[j] ==> i == j
  {
    if ss != [] {
      var rest := Flatten(ss[1..]);
      forall i, j | 0 <= i < j < |rest| ensures rest[i] != rest[j] {
        assert Flatten(ss)[|ss[0]| + i] == rest[i] && Flatten(ss)[|ss[0]| + j] == rest[j];
      }
      FlattenDisjoint(ss[1..]);
      assert NoRepeats(ss[0]) by {
        forall i, j | 0 <= i < j < |ss[0]| ensures ss[0][i] != ss[0][j] {
          assert Flatten(ss)[i] == ss[0][i] && Flatten(ss)[j] == ss[0][j];
        }
      }
      AppendRepeats(ss[0], rest);
      FlattenMembers(ss[1..]);
      forall i, j, id | 0 <= i < |ss| && 0 <= j < |ss| && id in ss[i] && id in ss[j] ensures i == j {
        assert j > 0 ==> id in ss[1..][j - 1] && id in rest;
        assert i > 0 ==> id in ss[1..][i - 1] && id in rest;
      }
    }
  }

  /** A service listed by a sound definition lives on the definition's machine. */
  lemma ListedPlaced(services: seq<Service>, machines: set<Id>, d: Definition, id: Id)
    requires Sound(services, machines, d) && id in Listed(services, d).value
    ensures PlacedOn(services, id, d.machine)
  {
    LookupKnown(services, d.members);
    var s :| s in services && s.id == id;
  }

  /** Whatever route the services took into their groups, the result is a partition by machine. */
  lemma GroupsPartitionServices(services: seq<Service>, machines: set<Id>, definitions: seq<Definition>,
                                groups: seq<Group>)
    requires UniqueServices(services)
    requires Acceptable(services, machines, definitions) && GroupsAre(services, definitions, groups)
    ensures Partition(services, groups)
  {
    var lists := Lists(services, definitions);
    var listed := ToSet(Flatten(lists));
    FlattenMembers(lists);
    FlattenDisjoint(lists);
    forall i | 0 <= i < |groups|
      ensures NoRepeats(groups[i].services)
      ensures forall id :: id in groups[i].services <==>
                id in lists[i] || (id !in listed && PlacedOn(services, id, groups[i].machine))
    {
      AdoptedMembers(services, listed, definitions[i].machine);
      assert forall id :: id in lists[i] ==> id in listed;
      AppendRepeats(lists[i], Adopted(services, listed, definitions[i].machine));
    }
    forall s | s in services ensures exists i :: 0 <= i < |groups| && s.id in groups[i].services {
      if s.id in listed {
        var i :| 0 <= i < |lists| && s.id in lists[i];
        assert s.id in groups[i].services;
      } else {
        var i :| 0 <= i < |definitions| && definitions[i].machine == s.machine;
        assert PlacedOn(services, s.id, groups[i].machine);
      }
    }
    forall i, j, id | 0 <= i < |groups| && 0 <= j < |groups| && id in groups[i].services && id in groups[j].services
      ensures i == j
    {
      if id !in listed {
        var s :| s in services && s.id == id && s.machine == groups[i].machine;
        assert OneGroupOn(definitions, s.machine);
      } else {
        assert id in lists[i] && id in lists[j];
      }
    }
    forall i, id | 0 <= i < |groups| && id in groups[i].services ensures PlacedOn(services, id, groups[i].machine) {
      if id in lists[i] { ListedPlaced(services, machines, definitions[i], id); }
    }
  }

  /** The fallback without groups is a partition too. */
  lemma FallbackPartitionsServices(machines: seq<Machine>, services: seq<Service>)
    requires UniqueServices(services) && UniqueMachines(machines)
    requires forall s :: s in services ==> s.machine in MachineIds(machines)
    ensures Partition(services, PerMachine(machines, services))
  {
    var groups := PerMachine(machines, services);
    forall i | 0 <= i < |groups|
      ensures NoRepeats(groups[i].services)
      ensures forall id :: id in groups[i].services <==> PlacedOn(services, id, machines[i].id)
    {
      AdoptedMembers(services, {}, machines[i].id);
    }
    forall s | s in services ensures exists i :: 0 <= i < |groups| && s.id in groups[i].services {
      var m :| m in machines && m.id == s.machine;
      var i :| 0 <= i < |machines| && machines[i] == m;
      assert PlacedOn(services, s.id, machines[i].id);
    }
    forall i, j, id | 0 <= i < |groups| && 0 <= j < |groups| && id in groups[i].services && id in groups[j].services
      ensures i == j
    {
      assert PlacedOn(services, id, machines[i].id) && PlacedOn(services, id, machines[j].id);
      assert machines[i].id == machines[j].id;
    }
  }
}
