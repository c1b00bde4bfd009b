/**
 * What an apply, a push, a lifecycle action or an outside removal may leave behind: relations
 * between the controller's disk, the staged bundles and the running containers.
 */
module Effects {
  import opened Ordering
  import opened Model
  import opened Bundles
  import opened Plans

  datatype ServiceState = Applied | Stopped | Removed

  datatype RunState = Unset | Running | Complete | Pushed

  /** The durable part of `status.json`. */
  datatype Status = Status(
    state: RunState, services: map<Id, ServiceState>, fingerprints: map<Id, Digest>, readiness: set<nat>)

  const NO_STATUS := Status(Unset, map[], map[], {})

  /** A plan as the runner uses it: services, their machine and group, and the ordered steps. */
  datatype Plan = Plan(machines: seq<Id>, services: seq<Service>, groups: map<Id, Id>, steps: seq<PlanStep>)

  /**
   * Disk and hosts together. `staged` is the copy of the bundle each machine works from;
   * `containers` says which inputs an existing container was created from.
   */
  datatype World = World(
    bundle: Option<Bundle>, status: Option<Status>, staged: map<Slot, Digest>, containers: map<Slot, Digest>)

  /** Types started with `run --rm`: they leave no container. */
  predicate IsJob(kind: ServiceType) {
    kind in {MinterMigrate, DashboardMigrate, ContractsDeploy, RpcProbe}
  }

  /** Types the lifecycle commands refuse. */
  predicate IsOneShot(kind: ServiceType) {
    kind in {MinterMigrate, DashboardMigrate, ContractsDeploy}
  }

  predicate SameAt(a: map<Slot, Digest>, b: map<Slot, Digest>, x: Slot) {
    (x in a <==> x in b) && (x in a ==> a[x] == b[x])
  }

  // ---------------------------------------------------------------- plans

  /** What the planner guarantees about a plan handed to the runner. */
  ghost predicate Runnable(p: Plan) {
    && UniqueServices(p.services)
    && (forall s :: s in p.services ==> s.id in p.groups && s.machine in p.machines)
    && NoRepeats(Ids(p.steps))
    && forall id :: ApplyId(id) in Ids(p.steps) <==> id in ById(p.services)
  }

  function SlotOf(p: Plan, s: Service): Slot
    requires s.id in p.groups
  {
    Slot(s.machine, p.groups[s.id], s.id)
  }

  function ServiceOf(p: Plan, id: Id): Service
    requires UniqueServices(p.services) && id in ById(p.services)
  {
    ById(p.services)[id]
  }

  /** Every service of the plan was rendered into the bundle. */
  predicate Rendered(p: Plan, b: Bundle) {
    forall s :: s in p.services ==> s.id in p.groups && SlotOf(p, s) in b.inputs
  }

  /** The fingerprint each service should have: the digest of its inputs in the bundle. */
  function Desired(p: Plan, b: Bundle): (r: map<Id, Digest>)
    requires UniqueServices(p.services) && Rendered(p, b)
    ensures r.Keys == ById(p.services).Keys
    ensures forall id :: id in r ==> r[id] == b.inputs[SlotOf(p, ServiceOf(p, id))]
  {
    if p.services == [] then map[] else map id | id in ById(p.services) :: b.inputs[SlotOf(p, ServiceOf(p, id))]
  }

  /** Services whose apply step is among the first `k` steps. */
  function AppliedBy(p: Plan, k: nat): (r: set<Id>)
    requires k <= |p.steps|
    ensures forall id :: id in r <==> ApplyId(id) in Ids(p.steps[..k])
  {
    set x | x in Ids(p.steps[..k]) && x.ApplyId? :: x.service
  }

  /** Phases whose gate is among the first `k` steps. */
  function GatedBy(p: Plan, k: nat): (r: set<nat>)
    requires k <= |p.steps|
    ensures forall n :: n in r <==> ReadinessId(n) in Ids(p.steps[..k])
  {
    set x | x in Ids(p.steps[..k]) && x.ReadinessId? :: x.phase
  }

  lemma AppliedStep(p: Plan, k: nat)
    requires k < |p.steps|
    ensures AppliedBy(p, k + 1) == AppliedBy(p, k) + (if p.steps[k].id.ApplyId? then {p.steps[k].id.service} else {})
    ensures GatedBy(p, k + 1) == GatedBy(p, k) + (if p.steps[k].id.ReadinessId? then {p.steps[k].id.phase} else {})
  {
    assert Ids(p.steps[..k + 1]) == Ids(p.steps[..k]) + [p.steps[k].id];
  }

  lemma {:induction false} AppliedMonotone(p: Plan, j: nat, k: nat)
    requires j <= k <= |p.steps|
    ensures AppliedBy(p, j) <= AppliedBy(p, k) && GatedBy(p, j) <= GatedBy(p, k)
    decreases k - j
  {
    if j < k {
      AppliedMonotone(p, j, k - 1);
      AppliedStep(p, k - 1);
    }
  }

  lemma AppliedAreServices(p: Plan, k: nat)
    requires Runnable(p) && k <= |p.steps|
    ensures AppliedBy(p, k) <= ById(p.services).Keys
    ensures AppliedBy(p, |p.steps|) == ById(p.services).Keys
  {
    AppliedMonotone(p, k, |p.steps|);
    assert p.steps[..|p.steps|] == p.steps;
  }

  /** Where a planned service lives, and the inputs the bundle has for it there. */
  lemma DesiredAt(p: Plan, b: Bundle, s: Service)
    requires Runnable(p) && s in p.services
    ensures SlotOf(p, ServiceOf(p, s.id)) == Slot(s.machine, p.groups[s.id], s.id)
    ensures Rendered(p, b) ==>
      && Slot(s.machine, p.groups[s.id], s.id) in b.inputs
      && Desired(p, b)[s.id] == b.inputs[Slot(s.machine, p.groups[s.id], s.id)]
  {
  }

  lemma RenderedIff(p: Plan, b: Bundle)
    requires Runnable(p)
    ensures Rendered(p, b) <==> forall s :: s in p.services ==> Slot(s.machine, p.groups[s.id], s.id) in b.inputs
  {
  }

  // ---------------------------------------------------------------- one apply

  function Known(status: Option<Status>): Status {
    status.GetOr<Status>(NO_STATUS)
  }

  /** The status records `id` as applied with the desired fingerprint. */
  predicate Recorded(status: Option<Status>, desired: map<Id, Digest>, id: Id) {
    var s := Known(status);
    && id in s.services && s.services[id] == Applied
    && id in s.fingerprints && id in desired && s.fingerprints[id] == desired[id]
  }

  /** No applied service is missing from the plan. */
  predicate NoneDropped(p: Plan, status: Option<Status>)
    requires UniqueServices(p.services)
  {
    forall id :: id in Known(status).services && Known(status).services[id] == Applied ==> id in ById(p.services)
  }

  /** The status says that `id` is applied, and the plan has no such service. */
  ghost predicate Drops(p: Plan, status: Option<Status>, id: Id) {
    && status.Some? && id in status.value.services && status.value.services[id] == ServiceState.Applied
    && forall s :: s in p.services ==> s.id != id
  }

  lemma NoneDroppedIff(p: Plan, status: Option<Status>)
    requires UniqueServices(p.services)
    ensures NoneDropped(p, status) <==> forall id :: !Drops(p, status, id)
  {
    forall id
      ensures Drops(p, status, id) <==>
        id in Known(status).services && Known(status).services[id] == ServiceState.Applied && id !in ById(p.services)
    {
      if id in ById(p.services) { assert ById(p.services)[id] in p.services; }
    }
  }

  /** The status has the service applied with these inputs. */
  ghost predicate AppliedWith(status: Option<Status>, id: Id, inputs: Digest) {
    && status.Some? && id in status.value.services && status.value.services[id] == ServiceState.Applied
    && id in status.value.fingerprints && status.value.fingerprints[id] == inputs
  }

  lemma RecordedIff(status: Option<Status>, desired: map<Id, Digest>, id: Id)
    ensures Recorded(status, desired, id) <==> id in desired && AppliedWith(status, id, desired[id])
  {
  }

  /** The status on disk once `k` steps of the plan are recorded. */
  function StatusAfter(p: Plan, before: Option<Status>, desired: map<Id, Digest>, k: nat, finished: bool): Status
    requires k <= |p.steps|
  {
    Status(if finished then Complete else Running,
           Known(before).services + Constant(AppliedBy(p, k), Applied),
           Restrict(desired, AppliedBy(p, k)),
           Known(before).readiness + GatedBy(p, k))
  }

  /** How far an apply got: refused before its first write, or raised or completed after some steps. */
  datatype Outcome = Refused | Walked(steps: nat, finished: bool)

  ghost predicate ChangedMachine(p: Plan, changed: set<Id>, machine: Id) {
    exists s :: s in p.services && s.id in changed && s.machine == machine
  }

  /**
   * Which services an apply leaves alone: only those recorded with the desired fingerprint whose
   * container was seen. `noise` names services disturbed from outside during the call.
   */
  ghost predicate Selects(p: Plan, w: World, desired: map<Id, Digest>, changed: set<Id>, noise: set<Id>)
    requires Runnable(p)
  {
    && changed <= ById(p.services).Keys
    && (forall id :: id in ById(p.services) && id !in changed ==>
          Recorded(w.status, desired, id) && SlotOf(p, ServiceOf(p, id)) in w.containers)
    && (forall id :: id in changed ==>
          !Recorded(w.status, desired, id) || SlotOf(p, ServiceOf(p, id)) !in w.containers || id in noise)
  }

  /** Machines with a changed service carry the new bundle once the first step ran; no other machine changes. */
  ghost predicate Stages(p: Plan, w: World, w': World, desired: map<Id, Digest>, changed: set<Id>, k: nat)
    requires Runnable(p) && desired.Keys == ById(p.services).Keys
  {
    && (forall x: Slot :: !ChangedMachine(p, changed, x.machine) ==>
          SameAt(w.staged, w'.staged, x))
    && (k > 0 ==> forall s :: s in p.services && ChangedMachine(p, changed, s.machine) ==>
          SlotOf(p, s) in w'.staged && w'.staged[SlotOf(p, s)] == desired[s.id])
  }

  /** The container at `x` was started by this run for a changed service. */
  ghost predicate Started(p: Plan, desired: map<Id, Digest>, changed: set<Id>, touched: set<Id>, x: Slot,
                          inputs: Digest)
    requires Runnable(p)
  {
    && x.service in changed && x.service in touched && x.service in ById(p.services) && x.service in desired
    && x == SlotOf(p, ServiceOf(p, x.service))
    && !IsJob(ServiceOf(p, x.service).kind)
    && inputs == desired[x.service]
  }

  /**
   * What may have happened to containers once the services in `done` are applied and those in
   * `touched` were at least begun: old containers survive unchanged or go, new ones run desired inputs.
   */
  ghost predicate RestartsTo(p: Plan, before: map<Slot, Digest>, after: map<Slot, Digest>, desired: map<Id, Digest>,
                             changed: set<Id>, noise: set<Id>, done: set<Id>, touched: set<Id>)
    requires Runnable(p) && desired.Keys == ById(p.services).Keys
  {
    && (forall x :: x in after ==>
          || (x in before && after[x] == before[x])
          || Started(p, desired, changed, touched, x, after[x]))
    && (forall id :: id in done && id in changed && id in ById(p.services) && !IsJob(ServiceOf(p, id).kind) ==>
          RunsDesired(p, after, desired, noise, id))
    && (forall id :: id in ById(p.services) && id !in changed && id !in noise ==>
          SlotOf(p, ServiceOf(p, id)) in after)
  }

  ghost predicate RunsDesired(p: Plan, containers: map<Slot, Digest>, desired: map<Id, Digest>, noise: set<Id>, id: Id)
    requires Runnable(p) && id in ById(p.services) && id in desired
  {
    var x := SlotOf(p, ServiceOf(p, id));
    && (x in containers ==> containers[x] == desired[id])
    && (id !in noise ==> x in containers)
  }

  /** Containers after `k` recorded steps, one more step possibly in flight. */
  ghost predicate Restarts(p: Plan, w: World, w': World, desired: map<Id, Digest>, changed: set<Id>, noise: set<Id>,
                           k: nat)
    requires Runnable(p) && desired.Keys == ById(p.services).Keys && k <= |p.steps|
  {
    RestartsTo(p, w.containers, w'.containers, desired, changed, noise,
               AppliedBy(p, k), AppliedBy(p, if k < |p.steps| then k + 1 else k))
  }

  /** Containers only disappeared. */
  ghost predicate OnlyLost(before: map<Slot, Digest>, after: map<Slot, Digest>) {
    forall x :: x in after ==> x in before && after[x] == before[x]
  }

  /** Everything one `apply` can do. */
  ghost predicate ApplyEffect(p: Plan, w: World, w': World, o: Outcome, changed: set<Id>, noise: set<Id>)
    requires Runnable(p)
  {
    match o
    case Refused => w'.status == w.status && w'.staged == w.staged && OnlyLost(w.containers, w'.containers)
    case Walked(k, finished) =>
      && k <= |p.steps| && (finished ==> k == |p.steps|)
      && w'.bundle.Some? && Rendered(p, w'.bundle.value) && NoneDropped(p, w.status)
      && var desired := Desired(p, w'.bundle.value);
      && Selects(p, w, desired, changed, noise)
      && w'.status == Some(StatusAfter(p, w.status, desired, k, finished))
      && Stages(p, w, w', desired, changed, k)
      && Restarts(p, w, w', desired, changed, noise, k)
  }

  lemma WalkedEffect(p: Plan, b: Bundle, w: World, w': World, k: nat, finished: bool, changed: set<Id>, noise: set<Id>)
    requires Runnable(p) && k <= |p.steps| && (finished ==> k == |p.steps|)
    requires w'.bundle == Some(b) && Rendered(p, b) && NoneDropped(p, w.status)
    requires Selects(p, w, Desired(p, b), changed, noise)
    requires w'.status == Some(StatusAfter(p, w.status, Desired(p, b), k, finished))
    requires Stages(p, w, w', Desired(p, b), changed, k)
    requires Restarts(p, w, w', Desired(p, b), changed, noise, k)
    ensures ApplyEffect(p, w, w', Walked(k, finished), changed, noise)
  {
  }

  // ---------------------------------------------------------------- the other operations

  datatype Action = Build | Stop | Start | Restart | Recreate | Remove

  function StateAfter(a: Action): ServiceState {
    match a case Remove => ServiceState.Removed case Stop => Stopped case _ => Applied
  }

  /** One lifecycle action on the service at `slot`. */
  ghost predicate LifecycleEffect(slot: Slot, kind: ServiceType, a: Action, w: World, w': World, ok: bool) {
    && w'.bundle == w.bundle && w'.staged == w.staged
    && (ok ==>
          && !IsOneShot(kind) && slot in w.staged
          && (a in {Stop, Start, Restart, Remove} ==> slot in w.containers)
          && w'.containers == (match a
                               case Recreate => w.containers[slot := w.staged[slot]]
                               case Remove => w.containers - {slot}
                               case _ => w.containers)
          && w'.status == Some(Known(w.status).(services := Known(w.status).services[slot.service := StateAfter(a)])))
    && (!ok ==>
          && w'.status == w.status
          && (|| w'.containers == w.containers
              || (a in {Recreate, Remove} && !IsOneShot(kind) && w'.containers == w.containers - {slot})
              || (a == Recreate && !IsOneShot(kind) && slot in w.staged &&
                  w'.containers == w.containers[slot := w.staged[slot]])))
  }

  /** The copy at `x` after staging: the bundle's inputs, or what a leftover held before, or nothing. */
  ghost predicate StagedAt(b: Bundle, before: map<Slot, Digest>, after: map<Slot, Digest>, x: Slot) {
    if x in b.inputs then x in after && after[x] == b.inputs[x]
    else x in after ==> x in before && after[x] == before[x]
  }

  /** Staging one machine: the bundle's slots are copied; leftovers may stay or go. */
  ghost predicate StagedOn(machine: Id, b: Bundle, before: map<Slot, Digest>, after: map<Slot, Digest>) {
    && (forall x: Slot :: x.machine != machine ==> SameAt(before, after, x))
    && (forall x: Slot :: x.machine == machine ==> StagedAt(b, before, after, x))
  }

  /** Staging several machines: each of them is staged, no other changes. */
  ghost predicate StagedUpTo(machines: seq<Id>, b: Bundle, before: map<Slot, Digest>, after: map<Slot, Digest>) {
    && (forall x: Slot :: x.machine !in machines ==> SameAt(before, after, x))
    && (forall x: Slot :: x.machine in machines ==> StagedAt(b, before, after, x))
  }

  /** A push that ran to its end: every machine staged, then the status replaced. */
  ghost predicate PushEffect(machines: seq<Id>, w: World, w': World) {
    && w.bundle.Some? && w'.bundle == w.bundle && w'.containers == w.containers
    && w'.status == Some(Status(Pushed, map[], map[], {}))
    && StagedUpTo(machines, w.bundle.value, w.staged, w'.staged)
  }

  /**
   * A push that raised after staging the machines in `done`: the status is still the old one. A
   * machine in `hurt`, whose own copy was cut short, can hold anything.
   */
  ghost predicate InterruptedPush(done: set<Id>, hurt: set<Id>, w: World, w': World) {
    && w.bundle.Some? && w'.bundle == w.bundle && w'.containers == w.containers && w'.status == w.status
    && (forall x: Slot :: x.machine !in done && x.machine !in hurt ==> SameAt(w.staged, w'.staged, x))
    && (forall x: Slot :: x.machine in done ==> StagedAt(w.bundle.value, w.staged, w'.staged, x))
  }
}
