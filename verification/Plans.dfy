/** The step list built from the layers: apply steps, readiness gates and their dependencies. */
module Plans {
  import opened Ordering
  import opened Model
  import opened Inventory
  import opened Groups
  import opened Planner
  import opened LayerOrder

  // ---------------------------------------------------------------- steps

  /** The identifiers the planner gives its steps; `StepText` is their spelling. */
  datatype StepId =
    PreflightId(machine: Id) | NetworkPreflightId | ApplyId(service: Id) | ReadinessId(phase: nat) | VerifyId

  datatype PlanStep = PlanStep(id: StepId, machine: Option<Id>, group: Option<Id>, dependsOn: seq<StepId>)

  function StepText(id: StepId): string
    requires id.ReadinessId? ==> id.phase < 7
  {
    match id
    case PreflightId(machine) => "preflight:" + machine.text
    case NetworkPreflightId => "network-preflight"
    case ApplyId(service) => "apply:" + service.text
    case ReadinessId(phase) => "readiness:" + PhaseName(phase)
    case VerifyId => "verify:deployment"
  }

  /** Different steps are spelled differently, so ids are unique as strings too. */
  lemma StepTextInjective(a: StepId, b: StepId)
    requires a.ReadinessId? ==> a.phase < 7
    requires b.ReadinessId? ==> b.phase < 7
    requires StepText(a) == StepText(b)
    ensures a == b
  {
    var s, t := StepText(a), StepText(b);
    assert s[0] == t[0];
    match a
    case PreflightId(machine) => assert s[10..] == machine.text && t[10..] == b.machine.text;
    case ApplyId(service) => assert s[6..] == service.text && t[6..] == b.service.text;
    case ReadinessId(phase) =>
      assert s[10..] == PhaseName(phase) && t[10..] == PhaseName(b.phase);
      PhaseNameInjective(phase, b.phase);
    case NetworkPreflightId =>
    case VerifyId =>
  }

  lemma PhaseNameInjective(p: nat, q: nat)
    requires p < 7 && q < 7 && PhaseName(p) == PhaseName(q)
    ensures p == q
  {
    assert |PhaseName(p)| == |PhaseName(q)|;
    assert PhaseName(p)[0] == PhaseName(q)[0];
  }

  function Ids(steps: seq<PlanStep>): (r: seq<StepId>)
    ensures |r| == |steps| && forall i :: 0 <= i < |r| ==> r[i] == steps[i].id
  {
    seq(|steps|, i requires 0 <= i < |steps| => steps[i].id)
  }

  function ApplyIds(layer: seq<Id>): (r: seq<StepId>)
    ensures |r| == |layer| && forall i :: 0 <= i < |r| ==> r[i] == ApplyId(layer[i])
  {
    seq(|layer|, i requires 0 <= i < |layer| => ApplyId(layer[i]))
  }

  // ---------------------------------------------------------------- the order of steps

  predicate Shaped(g: map<Id, Service>, layers: seq<seq<Id>>) {
    forall i :: 0 <= i < |layers| ==> layers[i] != [] && layers[i][0] in g
  }

  function LayerPhase(g: map<Id, Service>, layers: seq<seq<Id>>, i: nat): nat
    requires Shaped(g, layers) && i < |layers|
  {
    PhaseOf(g[layers[i][0]].kind)
  }

  /** No later layer belongs to the phase of layer `i`. */
  predicate LastOfPhase(g: map<Id, Service>, layers: seq<seq<Id>>, i: nat)
    requires Shaped(g, layers) && i < |layers|
  {
    forall j :: i < j < |layers| ==> LayerPhase(g, layers, j) != LayerPhase(g, layers, i)
  }

  ghost function LayerSteps(g: map<Id, Service>, layers: seq<seq<Id>>, i: nat): seq<StepId>
    requires Shaped(g, layers) && i < |layers|
  {
    ApplyIds(layers[i]) + (if LastOfPhase(g, layers, i) then [ReadinessId(LayerPhase(g, layers, i))] else [])
  }

  /** Apply steps and gates of the first `n` layers. */
  ghost function Body(g: map<Id, Service>, layers: seq<seq<Id>>, n: nat): seq<StepId>
    requires Shaped(g, layers) && n <= |layers|
  {
    if n == 0 then [] else Body(g, layers, n - 1) + LayerSteps(g, layers, n - 1)
  }

  function Preflights(machines: seq<Machine>): (r: seq<StepId>)
    ensures |r| == |machines| && forall i :: 0 <= i < |r| ==> r[i] == PreflightId(machines[i].id)
  {
    seq(|machines|, i requires 0 <= i < |machines| => PreflightId(machines[i].id))
  }

  ghost function PlanIds(g: map<Id, Service>, machines: seq<Machine>, layers: seq<seq<Id>>): seq<StepId>
    requires Shaped(g, layers)
  {
    Preflights(machines) + [NetworkPreflightId] + Body(g, layers, |layers|) + [VerifyId]
  }

  lemma LayeredIsShaped(g: map<Id, Service>, layers: seq<seq<Id>>)
    requires Layered(g, layers)
    ensures Shaped(g, layers)
  {
    forall i | 0 <= i < |layers| ensures layers[i] != [] && layers[i][0] in g {
      assert IsLayer(g, layers[i], Before(layers, i));
      LayerMembers(g, layers[i], Before(layers, i));
    }
  }

  lemma LayerIsOnePhase(g: map<Id, Service>, layers: seq<seq<Id>>, i: nat, id: Id)
    requires Layered(g, layers) && Shaped(g, layers) && i < |layers| && id in layers[i]
    ensures id in g && PhaseOf(g[id].kind) == LayerPhase(g, layers, i)
  {
    assert IsLayer(g, layers[i], Before(layers, i));
    assert id in ToSet(layers[i]) && layers[i][0] in ToSet(layers[i]);
  }

  // ---------------------------------------------------------------- facts about the body

  lemma LayerStepMembers(g: map<Id, Service>, layers: seq<seq<Id>>, i: nat)
    requires Shaped(g, layers) && i < |layers|
    ensures forall id :: ApplyId(id) in LayerSteps(g, layers, i) <==> id in ToSet(layers[i])
    ensures forall p :: ReadinessId(p) in LayerSteps(g, layers, i) <==>
              LayerPhase(g, layers, i) == p && LastOfPhase(g, layers, i)
    ensures forall x :: x in LayerSteps(g, layers, i) ==> x.ApplyId? || x.ReadinessId?
  {
    forall id ensures ApplyId(id) in ApplyIds(layers[i]) <==> id in layers[i] {
      if id in layers[i] {
        var k :| 0 <= k < |layers[i]| && layers[i][k] == id;
        assert ApplyIds(layers[i])[k] == ApplyId(id);
      }
    }
  }

  lemma {:induction false} BodyApplyIff(g: map<Id, Service>, layers: seq<seq<Id>>, n: nat, id: Id)
    requires Shaped(g, layers) && n <= |layers|
    ensures ApplyId(id) in Body(g, layers, n) <==> id in Before(layers, n)
  {
    if n > 0 {
      BodyApplyIff(g, layers, n - 1, id);
      BeforeStep(layers, n - 1);
      LayerStepMembers(g, layers, n - 1);
    }
  }

  lemma {:induction false} BodyGateIff(g: map<Id, Service>, layers: seq<seq<Id>>, n: nat, p: nat)
    requires Shaped(g, layers) && n <= |layers|
    ensures ReadinessId(p) in Body(g, layers, n) <==>
              exists i :: 0 <= i < n && LayerPhase(g, layers, i) == p && LastOfPhase(g, layers, i)
  {
    if n > 0 {
      BodyGateIff(g, layers, n - 1, p);
      LayerStepMembers(g, layers, n - 1);
    }
  }

  lemma {:induction false} BodyKinds(g: map<Id, Service>, layers: seq<seq<Id>>, n: nat)
    requires Shaped(g, layers) && n <= |layers|
    ensures forall x :: x in Body(g, layers, n) ==> x.ApplyId? || x.ReadinessId?
  {
    if n > 0 {
      BodyKinds(g, layers, n - 1);
      LayerStepMembers(g, layers, n - 1);
    }
  }

  lemma BodyMembers(g: map<Id, Service>, layers: seq<seq<Id>>, n: nat)
    requires Shaped(g, layers) && n <= |layers|
    ensures forall id :: ApplyId(id) in Body(g, layers, n) <==> id in Before(layers, n)
    ensures forall p :: ReadinessId(p) in Body(g, layers, n) <==>
              exists i :: 0 <= i < n && LayerPhase(g, layers, i) == p && LastOfPhase(g, layers, i)
    ensures forall x :: x in Body(g, layers, n) ==> x.ApplyId? || x.ReadinessId?
  {
    forall id ensures ApplyId(id) in Body(g, layers, n) <==> id in Before(layers, n) { BodyApplyIff(g, layers, n, id); }
    forall p
      ensures ReadinessId(p) in Body(g, layers, n) <==>
        exists i :: 0 <= i < n && LayerPhase(g, layers, i) == p && LastOfPhase(g, layers, i)
    {
      BodyGateIff(g, layers, n, p);
    }
    BodyKinds(g, layers, n);
  }

  lemma {:induction false} BodyNoRepeats(g: map<Id, Service>, layers: seq<seq<Id>>, n: nat)
    requires Layered(g, layers) && Shaped(g, layers) && n <= |layers|
    ensures NoRepeats(Body(g, layers, n))
  {
    if n > 0 {
      BodyNoRepeats(g, layers, n - 1);
      BodyMembers(g, layers, n - 1);
      LayerStepMembers(g, layers, n - 1);
      assert IsLayer(g, layers[n - 1], Before(layers, n - 1));
      LayerMembers(g, layers[n - 1], Before(layers, n - 1));
      var front, last := Body(g, layers, n - 1), LayerSteps(g, layers, n - 1);
      forall x | x in front ensures x !in last {
        match x
        case ApplyId(id) => assert id in Before(layers, n - 1);
        case ReadinessId(p) => assert ReadinessId(p) in front;
        case _ =>
      }
      NoRepeatsConcat(front, last);
    }
  }

  /** Step ids are unique. */
  lemma PlanIdsUnique(g: map<Id, Service>, machines: seq<Machine>, layers: seq<seq<Id>>)
    requires Layering(g, layers) && Shaped(g, layers) && UniqueMachines(machines)
    ensures NoRepeats(PlanIds(g, machines, layers))
  {
    BodyNoRepeats(g, layers, |layers|);
    BodyMembers(g, layers, |layers|);
    var front := Preflights(machines);
    NoRepeatsConcat(front, [NetworkPreflightId]);
    NoRepeatsConcat(front + [NetworkPreflightId], Body(g, layers, |layers|));
    NoRepeatsConcat(front + [NetworkPreflightId] + Body(g, layers, |layers|), [VerifyId]);
  }

  ghost predicate Inhabited(g: map<Id, Service>, p: nat) {
    exists id :: id in g && PhaseOf(g[id].kind) == p
  }

  /** Every service is applied, and a phase has a gate exactly when it has services. */
  lemma PlanCovers(g: map<Id, Service>, machines: seq<Machine>, layers: seq<seq<Id>>)
    requires Layering(g, layers) && Shaped(g, layers)
    ensures forall id :: ApplyId(id) in PlanIds(g, machines, layers) <==> id in g
    ensures forall p :: ReadinessId(p) in PlanIds(g, machines, layers) <==> Inhabited(g, p)
  {
    BodyMembers(g, layers, |layers|);
    forall p ensures ReadinessId(p) in Body(g, layers, |layers|) <==> Inhabited(g, p) {
      GateIffInhabited(g, layers, p);
    }
  }

  lemma GateIffInhabited(g: map<Id, Service>, layers: seq<seq<Id>>, p: nat)
    requires Layering(g, layers) && Shaped(g, layers)
    ensures ReadinessId(p) in Body(g, layers, |layers|) <==> Inhabited(g, p)
  {
    BodyMembers(g, layers, |layers|);
    if ReadinessId(p) in Body(g, layers, |layers|) {
      var i :| 0 <= i < |layers| && LayerPhase(g, layers, i) == p && LastOfPhase(g, layers, i);
      assert layers[i][0] in g;
    }
    if Inhabited(g, p) {
      var id :| id in g && PhaseOf(g[id].kind) == p;
      var i := LayerOf(g, layers, id, |layers|);
      LayerIsOnePhase(g, layers, i, id);
      var last := LastLayerOf(g, layers, p, i);
    }
  }

  lemma {:induction false} LastLayerOf(g: map<Id, Service>, layers: seq<seq<Id>>, p: nat, i: nat) returns (last: nat)
    requires Shaped(g, layers) && i < |layers| && LayerPhase(g, layers, i) == p
    ensures last < |layers| && LayerPhase(g, layers, last) == p && LastOfPhase(g, layers, last)
    decreases |layers| - i
  {
    if j :| i < j < |layers| && LayerPhase(g, layers, j) == p {
      last := LastLayerOf(g, layers, p, j);
    } else {
      last := i;
    }
  }

  // ---------------------------------------------------------------- barriers

  /** Layers never go back to an earlier phase. */
  lemma PhasesAscend(services: seq<Service>, layers: seq<seq<Id>>, i: nat, j: nat)
    requires Contracted(services) && Layering(ById(services), layers) && Shaped(ById(services), layers)
    requires i < j < |layers|
    ensures LayerPhase(ById(services), layers, i) <= LayerPhase(ById(services), layers, j)
  {
    var g := ById(services);
    assert layers[i][0] in ToSet(layers[i]) && layers[j][0] in ToSet(layers[j]);
    OneLayerPerBand(services, layers, i, j, layers[i][0], layers[j][0]);
    ContractedDescends(services);
    assert BandLt(g, layers[i][0], layers[j][0]);
  }

  /** In `ids`, the gate of a phase separates its services and all earlier ones from all later ones. */
  ghost predicate Separates(g: map<Id, Service>, ids: seq<StepId>) {
    forall i, k :: 0 <= i < |ids| && 0 <= k < |ids| && ids[k].ReadinessId? && ids[i].ApplyId? && ids[i].service in g ==>
      (i < k <==> PhaseOf(g[ids[i].service].kind) <= ids[k].phase)
  }

  lemma EarlierApply(services: seq<Service>, layers: seq<seq<Id>>, n: nat, id: Id)
    requires Contracted(services) && Layering(ById(services), layers) && Shaped(ById(services), layers)
    requires n < |layers| && ApplyId(id) in Body(ById(services), layers, n)
    ensures id in ById(services) && PhaseOf(ById(services)[id].kind) <= LayerPhase(ById(services), layers, n)
  {
    var g := ById(services);
    BodyMembers(g, layers, n);
    var j := LayerOf(g, layers, id, n);
    LayerIsOnePhase(g, layers, j, id);
    PhasesAscend(services, layers, j, n);
  }

  lemma EarlierGate(services: seq<Service>, layers: seq<seq<Id>>, n: nat, p: nat)
    requires Contracted(services) && Layering(ById(services), layers) && Shaped(ById(services), layers)
    requires n < |layers| && ReadinessId(p) in Body(ById(services), layers, n)
    ensures p < LayerPhase(ById(services), layers, n)
  {
    var g := ById(services);
    BodyMembers(g, layers, n);
    var j :| 0 <= j < n && LayerPhase(g, layers, j) == p && LastOfPhase(g, layers, j);
    PhasesAscend(services, layers, j, n);
  }

  lemma LayerApply(g: map<Id, Service>, layers: seq<seq<Id>>, n: nat, x: StepId)
    requires Layered(g, layers) && Shaped(g, layers) && n < |layers| && x in ApplyIds(layers[n])
    ensures x.ApplyId? && x.service in g && PhaseOf(g[x.service].kind) == LayerPhase(g, layers, n)
  {
    var k :| 0 <= k < |layers[n]| && ApplyIds(layers[n])[k] == x;
    LayerIsOnePhase(g, layers, n, layers[n][k]);
  }

  lemma {:induction false} BodySeparates(services: seq<Service>, layers: seq<seq<Id>>, n: nat)
    requires Contracted(services) && Layering(ById(services), layers) && Shaped(ById(services), layers)
    requires n <= |layers|
    ensures Separates(ById(services), Body(ById(services), layers, n))
  {
    var g := ById(services);
    if n > 0 {
      BodySeparates(services, layers, n - 1);
      var front := Body(g, layers, n - 1);
      forall x | x in front && x.ApplyId?
        ensures x.service in g && PhaseOf(g[x.service].kind) <= LayerPhase(g, layers, n - 1)
      {
        EarlierApply(services, layers, n - 1, x.service);
      }
      forall x | x in front && x.ReadinessId? ensures x.phase < LayerPhase(g, layers, n - 1) {
        EarlierGate(services, layers, n - 1, x.phase);
      }
      forall x | x in ApplyIds(layers[n - 1])
        ensures x.ApplyId? && x.service in g && PhaseOf(g[x.service].kind) == LayerPhase(g, layers, n - 1)
      {
        LayerApply(g, layers, n - 1, x);
      }
      SeparationExtends(g, front, layers[n - 1], LayerPhase(g, layers, n - 1), LastOfPhase(g, layers, n - 1));
    }
  }

  lemma SeparationExtends(g: map<Id, Service>, front: seq<StepId>, layer: seq<Id>, phase: nat, gate: bool)
    requires Separates(g, front)
    requires forall x :: x in front && x.ApplyId? ==> x.service in g && PhaseOf(g[x.service].kind) <= phase
    requires forall x :: x in front && x.ReadinessId? ==> x.phase < phase
    requires forall x :: x in ApplyIds(layer) ==> x.service in g && PhaseOf(g[x.service].kind) == phase
    ensures Separates(g, front + (ApplyIds(layer) + (if gate then [ReadinessId(phase)] else [])))
  {
    var all := front + (ApplyIds(layer) + (if gate then [ReadinessId(phase)] else []));
    forall i, k | 0 <= i < |all| && 0 <= k < |all| && all[k].ReadinessId? && all[i].ApplyId? && all[i].service in g
      ensures i < k <==> PhaseOf(g[all[i].service].kind) <= all[k].phase
    {
      if k < |front| {
        assert all[k] in front;
        if i >= |front| { assert all[i] in ApplyIds(layer); }
      } else {
        assert k == |all| - 1 && all[k] == ReadinessId(phase);
        if i < |front| { assert all[i] in front; } else { assert all[i] in ApplyIds(layer); }
      }
    }
  }

  /** The phase barriers of a whole plan. */
  lemma PlanSeparates(services: seq<Service>, machines: seq<Machine>, layers: seq<seq<Id>>)
    requires Contracted(services) && Layering(ById(services), layers) && Shaped(ById(services), layers)
    ensures Separates(ById(services), PlanIds(ById(services), machines, layers))
  {
    var g := ById(services);
    BodySeparates(services, layers, |layers|);
    SeparatesWithin(g, Preflights(machines) + [NetworkPreflightId], Body(g, layers, |layers|), [VerifyId]);
  }

  lemma SeparatesWithin(g: map<Id, Service>, before: seq<StepId>, body: seq<StepId>, after: seq<StepId>)
    requires Separates(g, body)
    requires forall i :: 0 <= i < |before| ==> !before[i].ApplyId? && !before[i].ReadinessId?
    requires forall i :: 0 <= i < |after| ==> !after[i].ApplyId? && !after[i].ReadinessId?
    ensures Separates(g, before + body + after)
  {
    var all := before + body + after;
    assert forall i :: 0 <= i < |before| ==> all[i] == before[i];
    assert forall i :: |before| + |body| <= i < |all| ==> all[i] == after[i - |before| - |body|];
    assert forall i :: 0 <= i < |all| && (all[i].ApplyId? || all[i].ReadinessId?) ==> |before| <= i < |before| + |body|;
    forall i, k | 0 <= i < |all| && 0 <= k < |all| && all[k].ReadinessId? && all[i].ApplyId? && all[i].service in g
      ensures i < k <==> PhaseOf(g[all[i].service].kind) <= all[k].phase
    {
      assert all[i] == body[i - |before|] && all[k] == body[k - |before|];
    }
  }

  // ---------------------------------------------------------------- building the steps

  /** What layer `i` waits for: the gate before it, or the layer before it, or the network check. */
  function Stage(g: map<Id, Service>, layers: seq<seq<Id>>, i: nat): seq<StepId>
    requires Shaped(g, layers) && i <= |layers|
  {
    if i == 0 then [NetworkPreflightId]
    else if LastOfPhase(g, layers, i - 1) then [ReadinessId(LayerPhase(g, layers, i - 1))]
    else ApplyIds(layers[i - 1])
  }

  /**
   * A service step runs on the service's machine and group, after its providers or, without any,
   * the previous stage.
   */
  ghost predicate DescribesService(g: map<Id, Service>, groups: seq<Group>, layers: seq<seq<Id>>, i: nat,
                                   step: PlanStep)
    requires Shaped(g, layers) && i < |layers|
  {
    && step.id.ApplyId? && step.id.service in g && step.id.service in layers[i]
    && step.machine == Some(g[step.id.service].machine)
    && (exists k :: 0 <= k < |groups| && step.id.service in groups[k].services && step.group == Some(groups[k].id))
    && step.dependsOn ==
        (if g[step.id.service].connections != [] then Providers(g[step.id.service]) else Stage(g, layers, i))
  }

  /** A gate runs on the first machine, after the last layer of its phase. */
  ghost predicate DescribesGate(g: map<Id, Service>, machines: seq<Machine>, layers: seq<seq<Id>>, i: nat,
                                step: PlanStep)
    requires Shaped(g, layers) && i < |layers| && machines != []
  {
    && LastOfPhase(g, layers, i)
    && step == PlanStep(ReadinessId(LayerPhase(g, layers, i)), Some(machines[0].id), None, ApplyIds(layers[i]))
  }

  ghost predicate Described(g: map<Id, Service>, machines: seq<Machine>, groups: seq<Group>, layers: seq<seq<Id>>,
                            step: PlanStep)
    requires Shaped(g, layers) && machines != []
  {
    && (step.id.ApplyId? ==> exists i :: 0 <= i < |layers| && DescribesService(g, groups, layers, i, step))
    && (step.id.ReadinessId? ==> exists i :: 0 <= i < |layers| && DescribesGate(g, machines, layers, i, step))
    && (step.id.PreflightId? ==> step == PlanStep(step.id, Some(step.id.machine), None, []))
    && (step.id.NetworkPreflightId? ==> step == PlanStep(step.id, None, None, Preflights(machines)))
    && (step.id.VerifyId? ==> step == PlanStep(step.id, Some(machines[0].id), None, Stage(g, layers, |layers|)))
  }

  function Providers(s: Service): (r: seq<StepId>)
    ensures |r| == |s.connections| && forall i :: 0 <= i < |r| ==> r[i] == ApplyId(s.connections[i].service)
  {
    seq(|s.connections|, i requires 0 <= i < |s.connections| => ApplyId(s.connections[i].service))
  }

  /** Every dependency names a step that comes earlier in the list. */
  ghost predicate DependsOnEarlier(steps: seq<PlanStep>) {
    forall i, d :: 0 <= i < |steps| && d in steps[i].dependsOn ==> d in Ids(steps[..i])
  }

  lemma EarlierSnoc(steps: seq<PlanStep>, step: PlanStep)
    requires DependsOnEarlier(steps) && forall d :: d in step.dependsOn ==> d in Ids(steps)
    ensures DependsOnEarlier(steps + [step])
    ensures Ids(steps + [step]) == Ids(steps) + [step.id]
  {
    var all := steps + [step];
    forall i, d | 0 <= i < |all| && d in all[i].dependsOn ensures d in Ids(all[..i]) {
      assert all[..i] == steps[..i];
      if i == |steps| { assert steps[..i] == steps; }
    }
  }

  function GroupIdOf(groups: seq<Group>, id: Id): (r: Id)
    requires exists k :: 0 <= k < |groups| && id in groups[k].services
    ensures exists k :: 0 <= k < |groups| && id in groups[k].services && r == groups[k].id
  {
    if id in groups[0].services then groups[0].id else GroupIdOf(groups[1..], id)
  }

  /** The invariant of the step list: right order, dependencies first, each step described. */
  ghost predicate Built(g: map<Id, Service>, machines: seq<Machine>, groups: seq<Group>, layers: seq<seq<Id>>,
                        steps: seq<PlanStep>, ids: seq<StepId>)
    requires Shaped(g, layers) && machines != []
  {
    && Ids(steps) == ids && DependsOnEarlier(steps)
    && forall i {:trigger Described(g, machines, groups, layers, steps[i])} :: 0 <= i < |steps| ==>
         Described(g, machines, groups, layers, steps[i])
  }

  lemma BuiltSnoc(g: map<Id, Service>, machines: seq<Machine>, groups: seq<Group>, layers: seq<seq<Id>>,
                  steps: seq<PlanStep>, ids: seq<StepId>, step: PlanStep)
    requires Shaped(g, layers) && machines != [] && Built(g, machines, groups, layers, steps, ids)
    requires Described(g, machines, groups, layers, step) && forall d :: d in step.dependsOn ==> d in ids
    ensures Built(g, machines, groups, layers, steps + [step], ids + [step.id])
  {
    EarlierSnoc(steps, step);
  }

  /** The leading steps: one preflight per machine, then the network check. */
  method Leading(g: map<Id, Service>, machines: seq<Machine>, groups: seq<Group>, layers: seq<seq<Id>>)
    returns (steps: seq<PlanStep>)
    requires Shaped(g, layers) && machines != []
    ensures Built(g, machines, groups, layers, steps, Preflights(machines) + [NetworkPreflightId])
  {
    steps := [];
    for n := 0 to |machines|
      invariant Built(g, machines, groups, layers, steps, Preflights(machines)[..n])
    {
      var step := PlanStep(PreflightId(machines[n].id), Some(machines[n].id), None, []);
      BuiltSnoc(g, machines, groups, layers, steps, Preflights(machines)[..n], step);
      assert Preflights(machines)[..n + 1] == Preflights(machines)[..n] + [step.id];
      steps := steps + [step];
    }
    assert Preflights(machines)[..|machines|] == Preflights(machines);
    var check := PlanStep(NetworkPreflightId, None, None, Ids(steps));
    BuiltSnoc(g, machines, groups, layers, steps, Preflights(machines), check);
    steps := steps + [check];
  }

  /** Providers of a layer's services are in earlier layers. */
  lemma ProvidersEarlier(g: map<Id, Service>, layers: seq<seq<Id>>, i: nat, id: Id)
    requires Layered(g, layers) && Shaped(g, layers) && i < |layers| && id in layers[i]
    ensures id in g && forall d :: d in Providers(g[id]) ==> d in Body(g, layers, i)
  {
    assert IsLayer(g, layers[i], Before(layers, i));
    assert id in ToSet(layers[i]) && id in Candidates(g, Before(layers, i));
    BodyMembers(g, layers, i);
    forall d | d in Providers(g[id]) ensures d in Body(g, layers, i) {
      var k :| 0 <= k < |g[id].connections| && Providers(g[id])[k] == d;
      assert g[id].connections[k].service in Deps(g[id]);
      assert d.service in Before(layers, i);
    }
  }

  lemma StageEarlier(g: map<Id, Service>, layers: seq<seq<Id>>, i: nat, lead: seq<StepId>)
    requires Shaped(g, layers) && i <= |layers| && NetworkPreflightId in lead
    ensures forall d :: d in Stage(g, layers, i) ==> d in lead + Body(g, layers, i)
  {
    if i > 0 {
      assert forall d :: d in Stage(g, layers, i) ==> d in LayerSteps(g, layers, i - 1);
    }
  }

  function ServiceStep(service: Service, groups: seq<Group>, previous: seq<StepId>): PlanStep
    requires exists k :: 0 <= k < |groups| && service.id in groups[k].services
  {
    PlanStep(ApplyId(service.id), Some(service.machine), Some(GroupIdOf(groups, service.id)),
             if service.connections != [] then Providers(service) else previous)
  }

  /** Every service of the graph has a group. */
  ghost predicate Grouped(g: map<Id, Service>, groups: seq<Group>) {
    forall id :: id in g ==> g[id].id == id && exists k :: 0 <= k < |groups| && id in groups[k].services
  }

  lemma ServiceStepFits(g: map<Id, Service>, machines: seq<Machine>, groups: seq<Group>, layers: seq<seq<Id>>, i: nat,
                        id: Id, previous: seq<StepId>, lead: seq<StepId>)
    requires Layered(g, layers) && Shaped(g, layers) && machines != [] && i < |layers| && Grouped(g, groups)
    requires id in layers[i] && previous == Stage(g, layers, i) && NetworkPreflightId in lead
    ensures id in g && g[id].id == id && (exists k :: 0 <= k < |groups| && id in groups[k].services)
    ensures Described(g, machines, groups, layers, ServiceStep(g[id], groups, previous))
    ensures forall d :: d in ServiceStep(g[id], groups, previous).dependsOn ==> d in lead + Body(g, layers, i)
  {
    ProvidersEarlier(g, layers, i, id);
    StageEarlier(g, layers, i, lead);
    var step := ServiceStep(g[id], groups, previous);
    assert DescribesService(g, groups, layers, i, step);
  }

  /** The apply steps of one layer. */
  method ApplyLayer(g: map<Id, Service>, machines: seq<Machine>, groups: seq<Group>, layers: seq<seq<Id>>, i: nat,
                    previous: seq<StepId>, before: seq<PlanStep>, ghost lead: seq<StepId>)
    returns (steps: seq<PlanStep>)
    requires Layered(g, layers) && Shaped(g, layers) && machines != [] && i < |layers| && Grouped(g, groups)
    requires Built(g, machines, groups, layers, before, lead + Body(g, layers, i))
    requires NetworkPreflightId in lead && previous == Stage(g, layers, i)
    ensures Built(g, machines, groups, layers, steps, lead + Body(g, layers, i) + ApplyIds(layers[i]))
  {
    steps := before;
    ghost var ids := lead + Body(g, layers, i);
    var layer := layers[i];
    TakeAll(ids, ApplyIds(layer));
    for n := 0 to |layer|
      invariant Built(g, machines, groups, layers, steps, ids + ApplyIds(layer)[..n])
    {
      ServiceStepFits(g, machines, groups, layers, i, layer[n], previous, lead);
      var step := ServiceStep(g[layer[n]], groups, previous);
      BuiltSnoc(g, machines, groups, layers, steps, ids + ApplyIds(layer)[..n], step);
      TakeNext(ids, ApplyIds(layer), n);
      steps := steps + [step];
    }
  }

  function PlanKey(s: Service): Key { Key(PhaseOf(s.kind), 0, s.id) }

  /** The initial sort of the services changes neither their ids nor their graph. */
  lemma SortedServices(services: seq<Service>)
    requires UniqueServices(services)
    ensures UniqueServices(SortBy(services, PlanKey)) && ById(SortBy(services, PlanKey)) == ById(services)
  {
    var r := SortBy(services, PlanKey);
    assert DistinctKeys(services, PlanKey);
    SortDistinct(services, PlanKey);
    SortMembers(services, PlanKey);
    forall i, j | 0 <= i < j < |r| ensures r[i].id != r[j].id {
      assert r[i] in services && r[j] in services && PlanKey(r[i]) != PlanKey(r[j]);
      if r[i].id == r[j].id { SameIdSameService(services, r[i], r[j]); }
    }
    SameGraph(services, r);
  }

  lemma SameIdSameService(services: seq<Service>, a: Service, b: Service)
    requires UniqueServices(services) && a in services && b in services && a.id == b.id
    ensures a == b
  {
  }

  lemma SameGraph(services: seq<Service>, other: seq<Service>)
    requires UniqueServices(services) && UniqueServices(other) && forall s :: s in services <==> s in other
    ensures ById(services) == ById(other)
  {
    var g, h := ById(services), ById(other);
    forall id | id in g ensures id in h && h[id] == g[id] { assert g[id] in other; }
    forall id | id in h ensures id in g { assert h[id] in services; }
  }

  /**
   * The steps that belong to no service: each machine is checked by itself first, then the network once
   * all machines passed, and the deployment last, on the first machine, after the step before it.
   */
  ghost predicate Framed(machines: seq<Machine>, steps: seq<PlanStep>) {
    && machines != [] && |steps| >= |machines| + 2
    && (forall i :: 0 <= i < |machines| ==>
          steps[i] == PlanStep(PreflightId(machines[i].id), Some(machines[i].id), None, []))
    && steps[|machines|] == PlanStep(NetworkPreflightId, None, None, steps[|machines|].dependsOn)
    && |steps[|machines|].dependsOn| == |machines|
    && (forall i :: 0 <= i < |machines| ==> steps[|machines|].dependsOn[i] == PreflightId(machines[i].id))
    && steps[|steps| - 1] == PlanStep(VerifyId, Some(machines[0].id), None, [steps[|steps| - 2].id])
    && forall i :: |machines| < i < |steps| - 1 ==> steps[i].id.ApplyId? || steps[i].id.ReadinessId?
  }

  lemma BuiltIsFramed(g: map<Id, Service>, machines: seq<Machine>, groups: seq<Group>, layers: seq<seq<Id>>,
                      steps: seq<PlanStep>)
    requires Shaped(g, layers) && machines != [] &&
             Built(g, machines, groups, layers, steps, PlanIds(g, machines, layers))
    ensures Framed(machines, steps)
  {
    IdsInOrder(g, machines, layers, steps);
    LastStage(g, machines, layers);
    forall i | 0 <= i < |machines|
      ensures steps[i] == PlanStep(PreflightId(machines[i].id), Some(machines[i].id), None, [])
    {
      assert Described(g, machines, groups, layers, steps[i]);
    }
    NetworkStep(g, machines, groups, layers, steps[|machines|]);
    assert Described(g, machines, groups, layers, steps[|steps| - 1]);
  }

  lemma NetworkStep(g: map<Id, Service>, machines: seq<Machine>, groups: seq<Group>, layers: seq<seq<Id>>,
                    step: PlanStep)
    requires Shaped(g, layers) && machines != [] && Described(g, machines, groups, layers, step) &&
             step.id == NetworkPreflightId
    ensures step == PlanStep(NetworkPreflightId, None, None, step.dependsOn) && |step.dependsOn| == |machines|
    ensures forall i :: 0 <= i < |machines| ==> step.dependsOn[i] == PreflightId(machines[i].id)
  {
  }

  lemma IdsInOrder(g: map<Id, Service>, machines: seq<Machine>, layers: seq<seq<Id>>, steps: seq<PlanStep>)
    requires Shaped(g, layers) && Ids(steps) == PlanIds(g, machines, layers)
    ensures |steps| >= |machines| + 2
    ensures forall i :: 0 <= i < |machines| ==> steps[i].id == PreflightId(machines[i].id)
    ensures steps[|machines|].id == NetworkPreflightId && steps[|steps| - 1].id == VerifyId
    ensures steps[|steps| - 2].id == PlanIds(g, machines, layers)[|PlanIds(g, machines, layers)| - 2]
    ensures forall i :: |machines| < i < |steps| - 1 ==> steps[i].id.ApplyId? || steps[i].id.ReadinessId?
  {
    var ids, body := PlanIds(g, machines, layers), Body(g, layers, |layers|);
    BodyIds(g, layers, |layers|);
    forall i | 0 <= i < |steps| ensures steps[i].id == ids[i] {
      assert Ids(steps)[i] == steps[i].id;
    }
    forall i | |machines| < i < |steps| - 1 ensures ids[i] == body[i - |machines| - 1] {
    }
  }

  lemma {:induction false} BodyIds(g: map<Id, Service>, layers: seq<seq<Id>>, n: nat)
    requires Shaped(g, layers) && n <= |layers|
    ensures forall i :: 0 <= i < |Body(g, layers, n)| ==>
            Body(g, layers, n)[i].ApplyId? || Body(g, layers, n)[i].ReadinessId?
  {
    if n > 0 { BodyIds(g, layers, n - 1); }
  }

  /** The last stage is the step before the verification. */
  lemma LastStage(g: map<Id, Service>, machines: seq<Machine>, layers: seq<seq<Id>>)
    requires Shaped(g, layers)
    ensures Stage(g, layers, |layers|) == [PlanIds(g, machines, layers)[|PlanIds(g, machines, layers)| - 2]]
  {
    if layers != [] {
      assert LastOfPhase(g, layers, |layers| - 1);
      assert Body(g, layers, |layers|) == Body(g, layers, |layers| - 1) + LayerSteps(g, layers, |layers| - 1);
    }
  }

  /** Steps follow the table of phases: no service starts after one whose type comes later there. */
  lemma StepsFollowPhases(services: seq<Service>, machines: seq<Machine>, layers: seq<seq<Id>>, i: nat, j: nat, p: nat,
                          q: nat)
    requires Contracted(services) && Layering(ById(services), layers) && Shaped(ById(services), layers)
    requires var ids := PlanIds(ById(services), machines, layers);
      && i < j < |ids| && ids[i].ApplyId? && ids[j].ApplyId?
      && ids[i].service in ById(services) && ids[j].service in ById(services)
      && p < |PHASES| && ById(services)[ids[i].service].kind in PHASES[p].1
      && q < |PHASES| && ById(services)[ids[j].service].kind in PHASES[q].1
    ensures p <= q
  {
    var g, ids := ById(services), PlanIds(ById(services), machines, layers);
    PhaseIff(g[ids[i].service].kind, p);
    PhaseIff(g[ids[j].service].kind, q);
    PlanSeparates(services, machines, layers);
    PlanCovers(g, machines, layers);
    assert Inhabited(g, q);
    var k :| 0 <= k < |ids| && ids[k] == ReadinessId(q);
    assert j < k;
  }

  /** Build the step list, or fail when the services cannot be ordered. */
  method BuildPlan(machines: seq<Machine>, services: seq<Service>, groups: seq<Group>)
    returns (r: Result<seq<PlanStep>>, ghost layers: seq<seq<Id>>)
    requires UniqueServices(services) && UniqueMachines(machines) && machines != []
    requires Partition(services, groups)
    ensures r.Ok? <==> Closed(ById(services)) && Acyclic(ById(services))
    ensures r.Ok? ==> Layering(ById(services), layers) && Shaped(ById(services), layers)
    ensures r.Ok? ==> Built(ById(services), machines, groups, layers, r.value,
            PlanIds(ById(services), machines, layers))
    ensures r.Ok? ==> Framed(machines, r.value)
  {
    var g := ById(services);
    SortedServices(services);
    var ordered := Layers(SortBy(services, PlanKey));
    layers := [];
    if ordered.Fail? {
      return Fail(ordered.error), layers;
    }
    layers := ordered.value;
    LayeredIsShaped(g, layers);
    assert Grouped(g, groups);
    var steps := Steps(g, machines, groups, ordered.value);
    BuiltIsFramed(g, machines, groups, layers, steps);
    return Ok(steps), layers;
  }

  /** The phases gated before layer `i`. */
  ghost predicate Completed(g: map<Id, Service>, layers: seq<seq<Id>>, i: nat, phases: set<nat>)
    requires Shaped(g, layers) && i <= |layers|
  {
    forall p :: p in phases ==> exists j :: 0 <= j < i && LayerPhase(g, layers, j) == p && LastOfPhase(g, layers, j)
  }

  lemma GateIsNew(g: map<Id, Service>, layers: seq<seq<Id>>, i: nat, phases: set<nat>)
    requires Shaped(g, layers) && i < |layers| && Completed(g, layers, i, phases)
    ensures LayerPhase(g, layers, i) !in phases
    ensures Completed(g, layers, i + 1, phases)
    ensures LastOfPhase(g, layers, i) ==> Completed(g, layers, i + 1, phases + {LayerPhase(g, layers, i)})
  {
  }

  lemma GateFits(g: map<Id, Service>, machines: seq<Machine>, groups: seq<Group>, layers: seq<seq<Id>>, i: nat,
                 steps: seq<PlanStep>, lead: seq<StepId>, gate: PlanStep)
    requires Shaped(g, layers) && machines != [] && i < |layers| && DescribesGate(g, machines, layers, i, gate)
    requires Built(g, machines, groups, layers, steps, lead + Body(g, layers, i) + ApplyIds(layers[i]))
    ensures Built(g, machines, groups, layers, steps + [gate], lead + Body(g, layers, i) + ApplyIds(layers[i]) +
            [gate.id])
  {
    BuiltSnoc(g, machines, groups, layers, steps, lead + Body(g, layers, i) + ApplyIds(layers[i]), gate);
  }

  /** The loop over the layers: apply steps, then a gate once no later layer shares the phase. */
  method Steps(g: map<Id, Service>, machines: seq<Machine>, groups: seq<Group>, layers: seq<seq<Id>>)
    returns (steps: seq<PlanStep>)
    requires Layered(g, layers) && Shaped(g, layers) && machines != [] && Grouped(g, groups)
    ensures Built(g, machines, groups, layers, steps, PlanIds(g, machines, layers))
  {
    steps := Leading(g, machines, groups, layers);
    ghost var lead := Preflights(machines) + [NetworkPreflightId];
    assert lead[|machines|] == NetworkPreflightId;
    assert lead + Body(g, layers, 0) == lead;
    var previous := [NetworkPreflightId];
    var completed: set<nat> := {};
    for i := 0 to |layers|
      invariant Built(g, machines, groups, layers, steps, lead + Body(g, layers, i))
      invariant previous == Stage(g, layers, i)
      invariant Completed(g, layers, i, completed)
    {
      steps := ApplyLayer(g, machines, groups, layers, i, previous, steps, lead);
      previous := ApplyIds(layers[i]);
      var phase := LayerPhase(g, layers, i);
      Associative(lead + Body(g, layers, i), ApplyIds(layers[i]), [ReadinessId(phase)]);
      Associative(lead, Body(g, layers, i), LayerSteps(g, layers, i));
      GateIsNew(g, layers, i, completed);
      if LastOfPhase(g, layers, i) && phase !in completed {
        var gate := PlanStep(ReadinessId(phase), Some(machines[0].id), None, previous);
        GateFits(g, machines, groups, layers, i, steps, lead, gate);
        steps := steps + [gate];
        previous := [ReadinessId(phase)];
        completed := completed + {phase};
      }
    }
    var verify := PlanStep(VerifyId, Some(machines[0].id), None, previous);
    VerifyFits(g, machines, groups, layers, steps, lead);
    steps := steps + [verify];
  }

  lemma VerifyFits(g: map<Id, Service>, machines: seq<Machine>, groups: seq<Group>, layers: seq<seq<Id>>,
                   steps: seq<PlanStep>, lead: seq<StepId>)
    requires Shaped(g, layers) && machines != [] && NetworkPreflightId in lead
    requires Built(g, machines, groups, layers, steps, lead + Body(g, layers, |layers|))
    ensures Built(g, machines, groups, layers,
                  steps + [PlanStep(VerifyId, Some(machines[0].id), None, Stage(g, layers, |layers|))],
                  lead + Body(g, layers, |layers|) + [VerifyId])
  {
    StageEarlier(g, layers, |layers|, lead);
    BuiltSnoc(g, machines, groups, layers, steps, lead + Body(g, layers, |layers|),
              PlanStep(VerifyId, Some(machines[0].id), None, Stage(g, layers, |layers|)));
  }
}
