/** The editor's operations on groups, RPC nodes and bindings, performed through a session. */
module Operations {
  import opened Ordering
  import opened Model
  import opened Naming
  import opened Session

  datatype RpcNode = RpcNode(id: Id, group: Id)

  datatype Family = ValidatorGroups | ObserverGroups

  /** The part of a compact inventory these operations read and write; `other` is everything else. */
  datatype Compact<Other> = Compact(
    machines: set<Id>, placement: map<Id, Id>,
    validatorGroups: Option<seq<Quota>>, observerGroups: Option<seq<Quota>>,
    rpcNodes: seq<RpcNode>, primary: Id, bindings: Option<map<Id, Id>>, other: Other)

  function Section<O>(d: Compact<O>, f: Family): seq<Quota> {
    (if f == ValidatorGroups then d.validatorGroups else d.observerGroups).GetOr<seq<Quota>>([])
  }

  function WithSection<O>(d: Compact<O>, f: Family, groups: seq<Quota>): (r: Compact<O>)
    ensures Section(r, f) == groups
    ensures Section(r, if f == ValidatorGroups then ObserverGroups else ValidatorGroups) ==
            Section(d, if f == ValidatorGroups then ObserverGroups else ValidatorGroups)
  {
    if f == ValidatorGroups then d.(validatorGroups := Some(groups)) else d.(observerGroups := Some(groups))
  }

  predicate Declares(groups: seq<Quota>, group: Id) {
    exists q :: q in groups && q.group == group
  }

  predicate HasNode(nodes: seq<RpcNode>, node: Id) {
    exists n :: n in nodes && n.id == node
  }

  /** The dict without the key. */
  function Dropped(groups: seq<Quota>, group: Id): seq<Quota> {
    if groups == [] then []
    else (if groups[0].group == group then [] else [groups[0]]) + Dropped(groups[1..], group)
  }

  function DroppedNode(nodes: seq<RpcNode>, node: Id): (r: seq<RpcNode>)
    ensures forall n :: n in r <==> n in nodes && n.id != node
  {
    if nodes == [] then []
    else
      assert nodes == [nodes[0]] + nodes[1..];
      (if nodes[0].id == node then [] else [nodes[0]]) + DroppedNode(nodes[1..], node)
  }

  datatype Operation =
    | AddGroup(family: Family, group: Id, machine: Id, count: nat)
    | RemoveGroup(family: Family, group: Id)
    | RemoveRpcNode(node: Id)
    | SetBinding(consumer: Id, provider: Option<Id>)

  /** What an operation checks before it touches the session. */
  function Precheck<O>(d: Compact<O>, op: Operation): Option<string> {
    match op
    case AddGroup(f, group, machine, count) =>
      if !(1 <= count <= 1000) then Some("'count' must be an integer from 1 to 1000")
      else if Declares(Section(d, f), group) then Some("group already exists")
      else if machine !in d.machines then Some("unknown machine")
      else if group in d.placement then Some("placement already declares the group")
      else None
    case RemoveGroup(f, group) => if Declares(Section(d, f), group) then None else Some("unknown group")
    case RemoveRpcNode(node) => if HasNode(d.rpcNodes, node) then None else Some("unknown RPC node")
    case SetBinding(_, _) => None
  }

  function ObserverPrefix(): string { "observer" }

  /** The providers a binding may name: RPC nodes and observers by position. */
  predicate Available<O>(d: Compact<O>, provider: Id) {
    HasNode(d.rpcNodes, provider) || provider in OfferedNames(ObserverPrefix(), Total(Section(d, ObserverGroups)))
  }

  /** The change an operation makes to a copy of the document. */
  function Changed<O>(d: Compact<O>, op: Operation): Result<Compact<O>> {
    match op
    case AddGroup(f, group, machine, count) =>
      Ok(WithSection(d, f, Section(d, f) + [Quota(group, count)]).(placement := d.placement[group := machine]))
    case RemoveGroup(f, group) =>
      Ok(WithSection(d, f, Dropped(Section(d, f), group)).(placement := d.placement - {group}))
    case RemoveRpcNode(node) =>
      var nodes := DroppedNode(d.rpcNodes, node);
      if d.primary == node && nodes == [] then Fail("the blockchain needs at least one RPC node")
      else
        Ok(d.(rpcNodes := nodes, primary := if d.primary == node then nodes[0].id else d.primary,
              bindings := if d.bindings.None? then None
                          else Some(d.bindings.value - set c | c in d.bindings.value && d.bindings.value[c] == node)))
    case SetBinding(consumer, provider) =>
      var bindings := d.bindings.GetOr<map<Id, Id>>(map[]);
      if provider.None? then
        var rest := bindings - {consumer};
        Ok(d.(bindings := if rest == map[] then None else Some(rest)))
      else if !Available(d, provider.value) then Fail("not an RPC node or observer")
      else Ok(d.(bindings := Some(bindings[consumer := provider.value])))
  }

  /** `perform`: a check that fails leaves the session as it was; a change that fails leaves all but the error. */
  method Perform<O(==), Res>(session: DraftSession<Compact<O>, Res>, op: Operation) returns (ok: bool)
    requires session.Valid()
    modifies session
    ensures session.Valid() && session.disk == old(session.disk)
    ensures Precheck(old(session.raw), op).Some? ==> !ok && session.Held() == old(session.Held())
    ensures Precheck(old(session.raw), op).None? ==>
      && session.Held() == Edited(session.resolve, old(session.Held()), (d: Compact<O>) => Changed(d, op), "blockchain")
      && (ok <==> Candidate(session.resolve, old(session.Held()), (d: Compact<O>) => Changed(d, op)).Ok?)
  {
    if Precheck(session.raw, op).Some? {
      return false;
    }
    ok := session.Apply((d: Compact<O>) => Changed(d, op), "blockchain");
  }

  // ---------------------------------------------------------------- what the operations do

  /** The section of the document an operation on groups works on. */
  ghost predicate HasGroup<O>(d: Compact<O>, f: Family, group: Id) {
    || (f == ValidatorGroups && d.validatorGroups.Some? && exists q :: q in d.validatorGroups.value && q.group == group)
    || (f == ObserverGroups && d.observerGroups.Some? && exists q :: q in d.observerGroups.value && q.group == group)
  }

  /** The complaints an operation can meet before it touches the session. */
  ghost predicate Complaint<O>(d: Compact<O>, op: Operation) {
    match op
    case AddGroup(f, group, machine, count) =>
      count == 0 || count > 1000 || HasGroup(d, f, group) || machine !in d.machines || group in d.placement
    case RemoveGroup(f, group) => !HasGroup(d, f, group)
    case RemoveRpcNode(node) => forall n :: n in d.rpcNodes ==> n.id != node
    case SetBinding(consumer, provider) => false
  }

  lemma PrecheckIff<O>(d: Compact<O>, op: Operation)
    ensures Precheck(d, op).Some? <==> Complaint(d, op)
  {
  }

  /** The new group comes last in its section and is placed on its machine; nothing else changes. */
  lemma AddGroupMeans<O>(d: Compact<O>, f: Family, group: Id, machine: Id, count: nat)
    ensures var r := Changed(d, AddGroup(f, group, machine, count));
      && r.Ok? && r.value.placement == d.placement[group := machine]
      && (f == ValidatorGroups ==>
            && r.value == d.(placement := r.value.placement, validatorGroups := r.value.validatorGroups)
            && r.value.validatorGroups ==
                 Some((if d.validatorGroups.Some? then d.validatorGroups.value else []) + [Quota(group, count)]))
      && (f == ObserverGroups ==>
            && r.value == d.(placement := r.value.placement, observerGroups := r.value.observerGroups)
            && r.value.observerGroups ==
                 Some((if d.observerGroups.Some? then d.observerGroups.value else []) + [Quota(group, count)]))
  {
  }

  /** The group leaves its section and the placement; the other groups keep their order, and nothing else changes. */
  lemma RemoveGroupMeans<O>(d: Compact<O>, f: Family, a: seq<Quota>, q: Quota, b: seq<Quota>)
    requires (if f == ValidatorGroups then d.validatorGroups else d.observerGroups) == Some(a + [q] + b)
    requires forall x :: x in a + b ==> x.group != q.group
    ensures var r := Changed(d, RemoveGroup(f, q.group));
      && r.Ok? && (forall g :: g in r.value.placement <==> g in d.placement && g != q.group)
      && (forall g :: g in r.value.placement ==> r.value.placement[g] == d.placement[g])
      && (f == ValidatorGroups ==> r.value == d.(placement := r.value.placement, validatorGroups := Some(a + b)))
      && (f == ObserverGroups ==> r.value == d.(placement := r.value.placement, observerGroups := Some(a + b)))
  {
    assert forall x :: x in a || x in b ==> x in a + b;
    DropMiddle(a, q, b);
  }

  /** Clearing a binding removes it, and the bindings with the last of them. */
  lemma ClearBindingMeans<O>(d: Compact<O>, consumer: Id)
    ensures var r := Changed(d, SetBinding(consumer, None));
      && r.Ok? && r.value == d.(bindings := r.value.bindings)
      && (r.value.bindings.Some? <==> d.bindings.Some? && exists c :: c in d.bindings.value && c != consumer)
      && (r.value.bindings.Some? ==> r.value.bindings.value == d.bindings.value - {consumer})
  {
    if c :| d.bindings.Some? && c in d.bindings.value && c != consumer {
      assert c in d.bindings.value - {consumer};
    }
  }

  // ---------------------------------------------------------------- what the operations keep

  lemma {:induction false} DropAbsent(groups: seq<Quota>, group: Id)
    requires !Declares(groups, group)
    ensures Dropped(groups, group) == groups
  {
    if groups != [] {
      assert groups == [groups[0]] + groups[1..];
      forall q | q in groups[1..] ensures q.group != group { assert q in groups; }
      DropAbsent(groups[1..], group);
    }
  }

  lemma {:induction false} DropConcat(a: seq<Quota>, b: seq<Quota>, group: Id)
    ensures Dropped(a + b, group) == Dropped(a, group) + Dropped(b, group)
  {
    if a == [] {
      assert a + b == b;
    } else {
      var head := if a[0].group == group then [] else [a[0]];
      DropConcat(a[1..], b, group);
      assert (a + b)[0] == a[0] && (a + b)[1..] == a[1..] + b;
      Associative(head, Dropped(a[1..], group), Dropped(b, group));
    }
  }

  /** Removing the group just added restores the document; only an absent section stays as an empty one. */
  lemma AddThenRemoveRestores<O>(d: Compact<O>, f: Family, group: Id, machine: Id, count: nat)
    requires Precheck(d, AddGroup(f, group, machine, count)).None?
    ensures var added := Changed(d, AddGroup(f, group, machine, count));
            && added.Ok? && Precheck(added.value, RemoveGroup(f, group)).None?
            && Changed(added.value, RemoveGroup(f, group)) == Ok(WithSection(d, f, Section(d, f)))
  {
    var added := Changed(d, AddGroup(f, group, machine, count)).value;
    assert Quota(group, count) in Section(added, f);
    DropConcat(Section(d, f), [Quota(group, count)], group);
    DropAbsent(Section(d, f), group);
    assert Dropped([Quota(group, count)], group) == [];
    assert Dropped(Section(added, f), group) == Section(d, f);
    assert added.placement - {group} == d.placement;
  }

  /** Adding a group renames no instance of either family. */
  lemma AddGroupKeepsInstances<O>(d: Compact<O>, f: Family, group: Id, machine: Id, count: nat, g: Family,
                                  prefix: string, before: seq<Instance>, after: seq<Instance>)
    requires Numbered(prefix, Section(d, g), before)
    requires Numbered(prefix, Section(Changed(d, AddGroup(f, group, machine, count)).value, g), after)
    ensures before <= after
  {
    if g == f {
      AppendingKeepsNames(prefix, Section(d, f), Quota(group, count), before, after);
    } else {
      assert before == after;
    }
  }

  /** Removing an RPC node fails only for the last, primary one; otherwise the primary is declared, no binding
      names the removed node, and every other binding is kept. */
  lemma RemoveRpcNodeKeepsReferences<O>(d: Compact<O>, node: Id)
    requires HasNode(d.rpcNodes, node) && HasNode(d.rpcNodes, d.primary)
    ensures var r := Changed(d, RemoveRpcNode(node));
            && (r.Fail? <==> d.primary == node && forall n :: n in d.rpcNodes ==> n.id == node)
            && (r.Ok? ==>
                  && HasNode(r.value.rpcNodes, r.value.primary) && !HasNode(r.value.rpcNodes, node)
                  && r.value == d.(rpcNodes := r.value.rpcNodes, primary := r.value.primary,
                      bindings := r.value.bindings)
                  && (d.primary != node ==> r.value.primary == d.primary)
                  && (d.primary == node ==> FirstOther(d.rpcNodes, node, r.value.primary))
                  && (forall n :: n in d.rpcNodes && n.id != node ==> n in r.value.rpcNodes)
                  && r.value.bindings.Some? == d.bindings.Some?
                  && (d.bindings.Some? ==> forall c :: c in r.value.bindings.value <==>
                      c in d.bindings.value && d.bindings.value[c] != node)
                  && (d.bindings.Some? ==> forall c :: c in r.value.bindings.value ==>
                      r.value.bindings.value[c] == d.bindings.value[c]))
  {
    var nodes := DroppedNode(d.rpcNodes, node);
    if nodes != [] {
      assert nodes[0] in nodes;
      FirstDropped(d.rpcNodes, node);
    }
  }

  /** The first node besides `node`. */
  ghost predicate FirstOther(nodes: seq<RpcNode>, node: Id, id: Id) {
    exists i :: 0 <= i < |nodes| && nodes[i].id == id && id != node && forall j :: 0 <= j < i ==> nodes[j].id == node
  }

  lemma {:induction false} FirstDropped(nodes: seq<RpcNode>, node: Id)
    requires DroppedNode(nodes, node) != []
    ensures FirstOther(nodes, node, DroppedNode(nodes, node)[0].id)
  {
    if nodes[0].id == node {
      FirstDropped(nodes[1..], node);
      FirstOtherLater(nodes, node, DroppedNode(nodes[1..], node)[0].id);
    } else {
      assert nodes[0].id == DroppedNode(nodes, node)[0].id;
    }
  }

  lemma FirstOtherLater(nodes: seq<RpcNode>, node: Id, id: Id)
    requires nodes != [] && nodes[0].id == node && FirstOther(nodes[1..], node, id)
    ensures FirstOther(nodes, node, id)
  {
    var rest := nodes[1..];
    var i :| 0 <= i < |rest| && rest[i].id == id && id != node && forall j :: 0 <= j < i ==> rest[j].id == node;
    forall j | 0 <= j < i + 1 ensures nodes[j].id == node {
      if j > 0 { assert nodes[j] == rest[j - 1]; }
    }
    assert nodes[i + 1] == rest[i];
  }

  /** A binding is accepted exactly for an RPC node or an observer the resolver creates. */
  lemma BindingAcceptedIff<O>(d: Compact<O>, consumer: Id, provider: Id, observers: seq<Instance>)
    requires Numbered(ObserverPrefix(), Section(d, ObserverGroups), observers)
    ensures Changed(d, SetBinding(consumer, Some(provider))).Ok? <==>
            HasNode(d.rpcNodes, provider) || provider in InstanceNames(observers)
    ensures Changed(d, SetBinding(consumer, Some(provider))).Ok? ==>
              Changed(d, SetBinding(consumer, Some(provider))).value ==
                  d.(bindings := Some(d.bindings.GetOr<map<Id, Id>>(map[])[consumer := provider]))
  {
    OfferedAreCreated(ObserverPrefix(), Section(d, ObserverGroups), observers);
  }

  lemma OthersDiffer(groups: seq<Quota>, j: nat)
    requires DistinctQuotas(groups) && j < |groups|
    ensures !Declares(groups[..j], groups[j].group) && !Declares(groups[j + 1..], groups[j].group)
  {
    forall q | q in groups[..j] ensures q.group != groups[j].group {
      var i :| 0 <= i < j && groups[i] == q;
    }
    forall q | q in groups[j + 1..] ensures q.group != groups[j].group {
      var i :| j < i < |groups| && groups[i] == q;
    }
  }

  lemma DropMiddle(a: seq<Quota>, q: Quota, b: seq<Quota>)
    requires !Declares(a, q.group) && !Declares(b, q.group)
    ensures Dropped(a + [q] + b, q.group) == a + b
  {
    DropConcat(a + [q], b, q.group);
    DropConcat(a, [q], q.group);
    DropAbsent(a, q.group);
    DropAbsent(b, q.group);
    assert Dropped([q], q.group) == [] && a + [] == a;
  }

  lemma DroppedIsWithout(groups: seq<Quota>, j: nat)
    requires DistinctQuotas(groups) && j < |groups|
    ensures Dropped(groups, groups[j].group) == Without(groups, j)
  {
    OthersDiffer(groups, j);
    DropMiddle(groups[..j], groups[j], groups[j + 1..]);
    assert groups == groups[..j] + [groups[j]] + groups[j + 1..];
  }

  /**
   * Removing an observer group leaves every binding's text alone. A binding to the observer at position i that
   * still resolves then means the same group exactly when that observer was numbered before the removed group,
   * or at least the removed count before the end of its own.
   */
  lemma BindingMeansSameGroupIff<O>(d: Compact<O>, j: nat, before: seq<Instance>, after: seq<Instance>, consumer: Id,
                                    i: nat)
    requires DistinctQuotas(Section(d, ObserverGroups)) && j < |Section(d, ObserverGroups)|
    requires Numbered(ObserverPrefix(), Section(d, ObserverGroups), before)
    requires Numbered(ObserverPrefix(),
             Section(Changed(d, RemoveGroup(ObserverGroups, Section(d, ObserverGroups)[j].group)).value,
                 ObserverGroups), after)
    requires d.bindings.Some? && consumer in d.bindings.value && i < |after| && i < |before| &&
             d.bindings.value[consumer] == before[i].name
    ensures var groups := Section(d, ObserverGroups);
            var r := Changed(d, RemoveGroup(ObserverGroups, groups[j].group)).value;
            && r.bindings == d.bindings && after[i].name == d.bindings.value[consumer]
            && (after[i].group == before[i].group <==>
                  (Owner(groups, i) < j
                   || (Owner(groups, i) > j &&
                       i + groups[j].count < Start(groups, Owner(groups, i)) + groups[Owner(groups, i)].count)))
  {
    DroppedIsWithout(Section(d, ObserverGroups), j);
    NameKeepsGroupIff(ObserverPrefix(), Section(d, ObserverGroups), j, before, after, i);
  }

  /** Three groups of one observer: removing the first silently moves a binding to the second observer. */
  lemma BindingCanMove(a: Id, b: Id, c: Id, before: seq<Instance>, after: seq<Instance>)
    requires a != b && b != c && a != c
    requires Numbered(ObserverPrefix(), [Quota(a, 1), Quota(b, 1), Quota(c, 1)], before)
    requires Numbered(ObserverPrefix(), Without([Quota(a, 1), Quota(b, 1), Quota(c, 1)], 0), after)
    ensures |before| == 3 && |after| == 2 && before[1].name == after[1].name && before[1].group == b &&
            after[1].group == c
  {
    var three := [Quota(a, 1), Quota(b, 1), Quota(c, 1)];
    assert three[..1] == [Quota(a, 1)] && three[..2] == [Quota(a, 1), Quota(b, 1)];
    assert three == ([] + [three[0]] + [three[1]]) + [three[2]];
    TotalSnoc([], three[0]);
    TotalSnoc([three[0]], three[1]);
    TotalSnoc([three[0], three[1]], three[2]);
    assert Without(three, 0) == [three[1], three[2]];
    TotalSnoc([], three[1]);
    TotalSnoc([three[1]], three[2]);
    assert [] + [three[1]] == [three[1]] && [three[1]] + [three[2]] == [three[1], three[2]];
    OwnerIff(three, 1, 1);
    OwnerIff([three[1], three[2]], 1, 1);
  }

  lemma TotalSnoc(groups: seq<Quota>, q: Quota)
    ensures Total(groups + [q]) == Total(groups) + q.count
  {
    assert (groups + [q])[..|groups|] == groups;
  }

  // ---------------------------------------------------------------- the ids a document can produce

  /** `sum(count for each group)` */
  method SumCounts(groups: seq<Quota>) returns (total: nat)
    ensures total == Total(groups)
  {
    total := 0;
    for k := 0 to |groups|
      invariant total == Total(groups[..k])
    {
      assert groups[..k + 1][..k] == groups[..k];
      total := total + groups[k].count;
    }
    assert groups[..|groups|] == groups;
  }

  function NodeIds(nodes: seq<RpcNode>): set<Id> {
    set n | n in nodes :: n.id
  }

  /** `_service_ids`, its chain part: RPC nodes and both numbered families. */
  method ChainServiceIds<O>(d: Compact<O>, validatorPrefix: string) returns (ids: set<Id>)
    ensures forall validators, observers ::
              Numbered(validatorPrefix, Section(d, ValidatorGroups), validators) &&
                  Numbered(ObserverPrefix(), Section(d, ObserverGroups), observers) ==>
                ids == NodeIds(d.rpcNodes) + ToSet(InstanceNames(validators)) + ToSet(InstanceNames(observers))
  {
    ids := NodeIds(d.rpcNodes);
    var total := SumCounts(Section(d, ValidatorGroups));
    ids := ids + OfferedNames(validatorPrefix, total);
    total := SumCounts(Section(d, ObserverGroups));
    ids := ids + OfferedNames(ObserverPrefix(), total);
    forall validators, observers |
      Numbered(validatorPrefix, Section(d, ValidatorGroups), validators) &&
          Numbered(ObserverPrefix(), Section(d, ObserverGroups), observers)
      ensures ids == NodeIds(d.rpcNodes) + ToSet(InstanceNames(validators)) + ToSet(InstanceNames(observers))
    {
      OfferedAreCreated(validatorPrefix, Section(d, ValidatorGroups), validators);
      OfferedAreCreated(ObserverPrefix(), Section(d, ObserverGroups), observers);
    }
  }
}
