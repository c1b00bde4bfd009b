/** Safety and convergence of whole runs: reuse across crashes, progress, barriers. */
module Runs {
  import opened Ordering
  import opened Model
  import opened Inventory
  import opened Bundles
  import opened Planner
  import opened Plans
  import opened Effects

  // ---------------------------------------------------------------- the invariant

  /** Where a service lives and what type it has: fixed over a run. */
  datatype Home = Home(slot: Slot, kind: ServiceType)

  type Homes = Id -> Home

  ghost predicate OwnSlots(home: Homes) {
    forall id :: home(id).slot.service == id
  }

  /** The plan places every service at its home. */
  ghost predicate PlanAt(home: Homes, p: Plan)
    requires Runnable(p)
  {
    forall id :: id in ById(p.services) ==> home(id) == Home(SlotOf(p, ServiceOf(p, id)), ServiceOf(p, id).kind)
  }

  /** A fingerprint on disk is the truth about the staged inputs and about any existing container. */
  ghost predicate Honest(w: World, h: Home, f: Digest) {
    !IsJob(h.kind) ==>
      && (h.slot in w.staged ==> w.staged[h.slot] == f)
      && (h.slot in w.containers ==> w.containers[h.slot] == f)
  }

  /** Every fingerprint on disk is honest, and no job has a container. */
  ghost predicate Sound(home: Homes, w: World) {
    && (forall id :: id in OnRecord(w) ==> Honest(w, home(id), OnRecord(w)[id]))
    && JobsLeaveNothing(home, w)
  }

  function OnRecord(w: World): map<Id, Digest> {
    Effects.Known(w.status).fingerprints
  }

  ghost predicate JobsLeaveNothing(home: Homes, w: World) {
    forall id :: IsJob(home(id).kind) ==> home(id).slot !in w.containers
  }

  /** The promise itself: an existing container of a service on record was created from the recorded inputs. */
  ghost predicate Truthful(home: Homes, w: World) {
    forall id :: id in OnRecord(w) && home(id).slot in w.containers ==> w.containers[home(id).slot] == OnRecord(w)[id]
  }

  lemma SoundIsTruthful(home: Homes, w: World)
    requires Sound(home, w)
    ensures Truthful(home, w)
  {
  }

  // ---------------------------------------------------------------- each operation keeps it

  lemma ApplyKeepsSound(home: Homes, p: Plan, w: World, w': World, o: Outcome, changed: set<Id>, noise: set<Id>)
    requires OwnSlots(home) && Runnable(p) && PlanAt(home, p)
    requires Sound(home, w) && ApplyEffect(p, w, w', o, changed, noise)
    ensures Sound(home, w')
  {
    if o.Walked? {
      var desired := Desired(p, w'.bundle.value);
      forall id | id in OnRecord(w') ensures Honest(w', home(id), OnRecord(w')[id]) {
        assert id in AppliedBy(p, o.steps) && id in desired;
        FirstStepStages(p, o.steps, id);
        if id in changed {
          ChangedIsHonest(home, p, w, w', o.steps, changed, noise, id);
        } else {
          ReusedIsHonest(home, p, w, w', o.steps, changed, noise, id);
        }
      }
    }
  }

  lemma FirstStepStages(p: Plan, k: nat, id: Id)
    requires k <= |p.steps| && id in AppliedBy(p, k)
    ensures k > 0
  {
    assert ApplyId(id) in Ids(p.steps[..k]);
  }

  /** A service this run (re)started: its machine was staged, its container comes from there. */
  lemma ChangedIsHonest(home: Homes, p: Plan, w: World, w': World, k: nat, changed: set<Id>, noise: set<Id>, id: Id)
    requires OwnSlots(home) && Runnable(p) && PlanAt(home, p)
    requires 0 < k <= |p.steps| && id in AppliedBy(p, k) && id in changed && id in ById(p.services)
    requires w'.bundle.Some? && Rendered(p, w'.bundle.value)
    requires Stages(p, w, w', Desired(p, w'.bundle.value), changed, k)
    requires Restarts(p, w, w', Desired(p, w'.bundle.value), changed, noise, k)
    ensures Honest(w', home(id), Desired(p, w'.bundle.value)[id])
  {
    var s := ServiceOf(p, id);
    assert s in p.services && ChangedMachine(p, changed, s.machine);
  }

  /** A service this run left alone: its old fingerprint is the desired one. */
  lemma ReusedIsHonest(home: Homes, p: Plan, w: World, w': World, k: nat, changed: set<Id>, noise: set<Id>, id: Id)
    requires OwnSlots(home) && Runnable(p) && PlanAt(home, p) && Sound(home, w)
    requires 0 < k <= |p.steps| && id in ById(p.services) && id !in changed
    requires w'.bundle.Some? && Rendered(p, w'.bundle.value)
    requires Selects(p, w, Desired(p, w'.bundle.value), changed, noise)
    requires Stages(p, w, w', Desired(p, w'.bundle.value), changed, k)
    requires Restarts(p, w, w', Desired(p, w'.bundle.value), changed, noise, k)
    ensures Honest(w', home(id), Desired(p, w'.bundle.value)[id])
  {
    var desired := Desired(p, w'.bundle.value);
    var s := ServiceOf(p, id);
    assert Recorded(w.status, desired, id) && Honest(w, home(id), desired[id]);
    assert s in p.services;
  }

  /** An apply skips only services already running the desired inputs. */
  lemma SkippedRunDesired(home: Homes, p: Plan, w: World, w': World, o: Outcome, changed: set<Id>, noise: set<Id>,
                          id: Id)
    requires OwnSlots(home) && Runnable(p) && PlanAt(home, p)
    requires Sound(home, w) && ApplyEffect(p, w, w', o, changed, noise) && o.Walked?
    requires id in ById(p.services) && id !in changed
    ensures SlotOf(p, ServiceOf(p, id)) in w.containers
    ensures w.containers[SlotOf(p, ServiceOf(p, id))] == Desired(p, w'.bundle.value)[id]
    ensures !IsJob(ServiceOf(p, id).kind)
  {
    var desired := Desired(p, w'.bundle.value);
    assert Recorded(w.status, desired, id) && Honest(w, home(id), desired[id]);
  }

  lemma PushKeepsSound(home: Homes, machines: seq<Id>, w: World, w': World)
    requires Sound(home, w) && PushEffect(machines, w, w')
    ensures Sound(home, w')
  {
  }

  lemma LifecycleKeepsSound(home: Homes, id: Id, a: Action, w: World, w': World, ok: bool)
    requires OwnSlots(home) && Sound(home, w)
    requires LifecycleEffect(home(id).slot, home(id).kind, a, w, w', ok)
    requires !(a == Recreate && home(id).kind == RpcProbe)
    ensures Sound(home, w')
  {
    assert forall other :: home(other).slot == home(id).slot ==> other == id;
    forall other | other in OnRecord(w') ensures Honest(w', home(other), OnRecord(w')[other]) {
      assert OnRecord(w') == OnRecord(w);
      assert Honest(w, home(other), OnRecord(w)[other]);
    }
  }

  // ---------------------------------------------------------------- whole runs

  datatype Event =
    | ApplyRun(plan: Plan, outcome: Outcome, changed: set<Id>, noise: set<Id>)
    | PushRun(machines: seq<Id>)
    | LifecycleRun(service: Id, action: Action, ok: bool)
    | PrepareRun
    | LossRun

  ghost predicate Happens(home: Homes, e: Event, w: World, w': World) {
    match e
    case ApplyRun(p, o, changed, noise) => Runnable(p) && PlanAt(home, p) && ApplyEffect(p, w, w', o, changed, noise)
    case PushRun(machines) => PushEffect(machines, w, w')
    case LifecycleRun(id, a, ok) =>
      LifecycleEffect(home(id).slot, home(id).kind, a, w, w', ok) && !(a == Recreate && home(id).kind == RpcProbe)
    case PrepareRun => w'.status == w.status && w'.staged == w.staged && w'.containers == w.containers
    case LossRun =>
      w'.bundle == w.bundle && w'.status == w.status && w'.staged == w.staged && OnlyLost(w.containers, w'.containers)
  }

  /** Each event leads from one world to the next. */
  ghost predicate Continues(home: Homes, events: seq<Event>, worlds: seq<World>) {
    |worlds| == |events| + 1 && forall i, j :: 0 <= i && j == i + 1 < |worlds| ==>
        Happens(home, events[i], worlds[i], worlds[j])
  }

  /** Nothing applied yet and no container. */
  ghost predicate Run(home: Homes, events: seq<Event>, worlds: seq<World>) {
    Continues(home, events, worlds) && worlds[0].status.None? && worlds[0].containers == map[]
  }

  lemma HappensKeepsSound(home: Homes, e: Event, w: World, w': World)
    requires OwnSlots(home) && Sound(home, w) && Happens(home, e, w, w')
    ensures Sound(home, w')
  {
    match e
    case ApplyRun(p, o, changed, noise) => ApplyKeepsSound(home, p, w, w', o, changed, noise);
    case PushRun(machines) => PushKeepsSound(home, machines, w, w');
    case LifecycleRun(id, a, ok) => LifecycleKeepsSound(home, id, a, w, w', ok);
    case PrepareRun =>
    case LossRun =>
  }

  lemma {:induction false} SoundAlong(home: Homes, events: seq<Event>, worlds: seq<World>, n: nat)
    requires OwnSlots(home) && Continues(home, events, worlds) && Sound(home, worlds[0]) && n < |worlds|
    ensures Sound(home, worlds[n])
  {
    if n > 0 {
      SoundAlong(home, events, worlds, n - 1);
      HappensKeepsSound(home, events[n - 1], worlds[n - 1], worlds[n]);
    }
  }

  /**
   * Reuse is sound over every run of applies that may raise at any step, completed pushes, lifecycle
   * actions that succeed or fail, prepares and containers removed from outside: in every state, an
   * existing container of a service with a recorded fingerprint was created from those inputs.
   */
  lemma ReuseIsSound(home: Homes, events: seq<Event>, worlds: seq<World>, n: nat)
    requires OwnSlots(home) && Run(home, events, worlds) && n < |worlds|
    ensures Sound(home, worlds[n]) && Truthful(home, worlds[n])
  {
    SoundAlong(home, events, worlds, n);
    SoundIsTruthful(home, worlds[n]);
  }

  // ---------------------------------------------------------------- the promise over later runs

  /** Every service an apply leaves alone has a container created from the desired inputs. */
  ghost predicate SkipsDesired(p: Plan, w: World, w': World, changed: set<Id>) {
    Runnable(p) && w'.bundle.Some? && Rendered(p, w'.bundle.value) ==>
      forall id :: id in ById(p.services) && id !in changed ==>
        SlotOf(p, ServiceOf(p, id)) in w.containers
        && w.containers[SlotOf(p, ServiceOf(p, id))] == Desired(p, w'.bundle.value)[id]
  }

  ghost predicate Honours(e: Event, w: World, w': World) {
    e.ApplyRun? && e.outcome.Walked? ==> SkipsDesired(e.plan, w, w', e.changed)
  }

  /** However things go on from `w`, every apply skips only services on the desired inputs. */
  ghost predicate SafeFrom(home: Homes, w: World) {
    forall events, worlds, n, m ::
      Continues(home, events, worlds) && worlds[0] == w && 0 <= n && m == n + 1 < |worlds| ==>
      Honours(events[n], worlds[n], worlds[m])
  }

  lemma SoundIsSafe(home: Homes, w: World)
    requires OwnSlots(home) && Sound(home, w)
    ensures SafeFrom(home, w)
  {
    forall events, worlds, n, m | Continues(home, events, worlds) && worlds[0] == w && 0 <= n && m == n + 1 < |worlds|
      ensures Honours(events[n], worlds[n], worlds[m])
    {
      SoundAlong(home, events, worlds, n);
      assert Happens(home, events[n], worlds[n], worlds[m]);
      SoundHonours(home, events[n], worlds[n], worlds[m]);
    }
  }

  lemma SoundHonours(home: Homes, e: Event, w: World, w': World)
    requires OwnSlots(home) && Sound(home, w) && Happens(home, e, w, w')
    ensures Honours(e, w, w')
  {
    if e.ApplyRun? && e.outcome.Walked? {
      forall id | id in ById(e.plan.services) && id !in e.changed
        ensures SlotOf(e.plan, ServiceOf(e.plan, id)) in w.containers
        ensures w.containers[SlotOf(e.plan, ServiceOf(e.plan, id))] == Desired(e.plan, w'.bundle.value)[id]
      {
        SkippedRunDesired(home, e.plan, w, w', e.outcome, e.changed, e.noise, id);
      }
    }
  }

  // ---------------------------------------------------------------- convergence

  /** A container of every long-running service of the plan exists and runs the desired inputs. */
  ghost predicate Settled(p: Plan, w: World)
    requires Runnable(p) && w.bundle.Some? && Rendered(p, w.bundle.value)
  {
    var desired := Desired(p, w.bundle.value);
    && (forall id :: id in desired ==> Recorded(w.status, desired, id))
    && OnRecord(w) == desired
    && forall id :: id in desired && !IsJob(ServiceOf(p, id).kind) ==>
         SlotOf(p, ServiceOf(p, id)) in w.containers && w.containers[SlotOf(p, ServiceOf(p, id))] == desired[id]
  }

  /** A completed apply records every planned service, with exactly the desired fingerprints. */
  lemma CompletionRecordsDesired(p: Plan, w: World, w': World, changed: set<Id>, noise: set<Id>)
    requires Runnable(p) && ApplyEffect(p, w, w', Walked(|p.steps|, true), changed, noise)
    ensures OnRecord(w') == Desired(p, w'.bundle.value) && w'.status.Some? && w'.status.value.state == Complete
    ensures forall id :: id in ById(p.services) ==> Recorded(w'.status, Desired(p, w'.bundle.value), id)
  {
    AppliedAreServices(p, |p.steps|);
    FinalStatus(p, w.status, Desired(p, w'.bundle.value));
  }

  /** The status of a completed walk records every service with its desired fingerprint. */
  lemma FinalStatus(p: Plan, before: Option<Status>, desired: map<Id, Digest>)
    requires desired.Keys == AppliedBy(p, |p.steps|)
    ensures StatusAfter(p, before, desired, |p.steps|, true).fingerprints == desired
    ensures forall id :: id in desired ==> Recorded(Some(StatusAfter(p, before, desired, |p.steps|, true)), desired, id)
  {
    var s := StatusAfter(p, before, desired, |p.steps|, true);
    assert s.fingerprints.Keys == desired.Keys;
  }

  /** After a completed apply no container is on other inputs than the desired ones. */
  lemma CompletionIsHonest(home: Homes, p: Plan, w: World, w': World, changed: set<Id>, noise: set<Id>, id: Id)
    requires OwnSlots(home) && Runnable(p) && PlanAt(home, p) && Sound(home, w)
    requires ApplyEffect(p, w, w', Walked(|p.steps|, true), changed, noise)
    requires id in ById(p.services) && home(id).slot in w'.containers
    ensures w'.containers[home(id).slot] == Desired(p, w'.bundle.value)[id]
  {
    CompletionRecordsDesired(p, w, w', changed, noise);
    ApplyKeepsSound(home, p, w, w', Walked(|p.steps|, true), changed, noise);
    assert Honest(w', home(id), OnRecord(w')[id]);
  }

  /** An undisturbed completed apply leaves a container for every long-running service. */
  /** Which types leave a container: all but the two migrations, the contract job and the RPC probe. */
  lemma JobsLeaveNoContainer(p: Plan, w: World, w': World, k: nat, finished: bool, changed: set<Id>, noise: set<Id>,
                             s: Service)
    requires Runnable(p) && s in p.services && ApplyEffect(p, w, w', Walked(k, finished), changed, noise)
    ensures var x := Slot(s.machine, p.groups[s.id], s.id);
      && (s.kind in {MinterMigrate, DashboardMigrate, ContractsDeploy, RpcProbe} && x in w'.containers ==>
            x in w.containers && w'.containers[x] == w.containers[x])
      && (s.kind !in {MinterMigrate, DashboardMigrate, ContractsDeploy, RpcProbe} && finished && s.id !in noise ==>
            x in w'.containers)
  {
    AppliedAreServices(p, |p.steps|);
    assert ServiceOf(p, s.id) == s;
  }

  lemma CompletionStartsAll(p: Plan, w: World, w': World, changed: set<Id>, id: Id)
    requires Runnable(p) && ApplyEffect(p, w, w', Walked(|p.steps|, true), changed, {})
    requires id in ById(p.services) && !IsJob(ServiceOf(p, id).kind)
    ensures SlotOf(p, ServiceOf(p, id)) in w'.containers
  {
    AppliedAreServices(p, |p.steps|);
  }

  lemma CompletionSettles(home: Homes, p: Plan, w: World, w': World, changed: set<Id>)
    requires OwnSlots(home) && Runnable(p) && PlanAt(home, p) && Sound(home, w)
    requires ApplyEffect(p, w, w', Walked(|p.steps|, true), changed, {})
    ensures Settled(p, w')
  {
    CompletionRecordsDesired(p, w, w', changed, {});
    forall id | id in ById(p.services) && !IsJob(ServiceOf(p, id).kind)
      ensures SlotOf(p, ServiceOf(p, id)) in w'.containers
      ensures w'.containers[SlotOf(p, ServiceOf(p, id))] == Desired(p, w'.bundle.value)[id]
    {
      CompletionStartsAll(p, w, w', changed, id);
      CompletionIsHonest(home, p, w, w', changed, {}, id);
    }
  }

  /**
   * Convergence: whatever happened before, one completed apply with no outside disturbance settles
   * the plan, and a further undisturbed apply of the same inputs touches only jobs: every container
   * it finds, it leaves as it was.
   */
  lemma ApplyConverges(home: Homes, p: Plan, events: seq<Event>, worlds: seq<World>, n: nat,
                       changed1: set<Id>, changed2: set<Id>, w1: World, w2: World, o2: Outcome)
    requires OwnSlots(home) && Run(home, events, worlds) && n < |worlds|
    requires Runnable(p) && PlanAt(home, p)
    requires ApplyEffect(p, worlds[n], w1, Walked(|p.steps|, true), changed1, {})
    requires ApplyEffect(p, w1, w2, o2, changed2, {}) && w2.bundle == w1.bundle
    ensures Settled(p, w1)
    ensures o2.Walked? ==> forall id :: id in changed2 ==> IsJob(ServiceOf(p, id).kind)
    ensures OnlyLost(w1.containers, w2.containers)
    ensures o2 == Walked(|p.steps|, true) ==> Settled(p, w2)
  {
    ReuseIsSound(home, events, worlds, n);
    CompletionSettles(home, p, worlds[n], w1, changed1);
    ApplyKeepsSound(home, p, worlds[n], w1, Walked(|p.steps|, true), changed1, {});
    if o2.Walked? {
      SecondApplyTouchesJobs(p, w1, w2, o2, changed2);
      if o2.finished { CompletionSettles(home, p, w1, w2, changed2); }
    }
  }

  lemma SecondApplyTouchesJobs(p: Plan, w1: World, w2: World, o: Outcome, changed: set<Id>)
    requires Runnable(p) && w1.bundle.Some? && Rendered(p, w1.bundle.value) && Settled(p, w1)
    requires ApplyEffect(p, w1, w2, o, changed, {}) && o.Walked? && w2.bundle == w1.bundle
    ensures forall id :: id in changed ==> IsJob(ServiceOf(p, id).kind)
    ensures OnlyLost(w1.containers, w2.containers)
  {
    var desired := Desired(p, w1.bundle.value);
    forall id | id in changed ensures IsJob(ServiceOf(p, id).kind) {
      assert Recorded(w1.status, desired, id);
    }
  }

  // ---------------------------------------------------------------- the planner's guarantees at run time

  /** The plan's steps are those the planner builds for these services. */
  ghost predicate PlannedBy(p: Plan, machines: seq<Machine>, groups: seq<Group>, layers: seq<seq<Id>>) {
    && UniqueServices(p.services) && UniqueMachines(machines) && machines != []
    && Layering(ById(p.services), layers) && Shaped(ById(p.services), layers)
    && Built(ById(p.services), machines, groups, layers, p.steps, PlanIds(ById(p.services), machines, layers))
    && forall s :: s in p.services ==> s.id in p.groups && s.machine in p.machines
  }

  lemma PlannedIsRunnable(p: Plan, machines: seq<Machine>, groups: seq<Group>, layers: seq<seq<Id>>)
    requires PlannedBy(p, machines, groups, layers)
    ensures Runnable(p)
  {
    PlanIdsUnique(ById(p.services), machines, layers);
    PlanCovers(ById(p.services), machines, layers);
  }

  lemma StepOf(p: Plan, k: nat, id: Id) returns (i: nat)
    requires k <= |p.steps| && id in AppliedBy(p, k)
    ensures i < k && p.steps[i].id == ApplyId(id)
  {
    i :| 0 <= i < k && Ids(p.steps[..k])[i] == ApplyId(id);
  }

  lemma ProviderBefore(p: Plan, machines: seq<Machine>, groups: seq<Group>, layers: seq<seq<Id>>, i: nat, id: Id, d: Id)
    requires PlannedBy(p, machines, groups, layers) && i < |p.steps| && p.steps[i].id == ApplyId(id)
    requires id in ById(p.services) && d in Deps(ById(p.services)[id])
    ensures d in AppliedBy(p, i)
  {
    var g := ById(p.services);
    assert Described(g, machines, groups, layers, p.steps[i]);
    var c :| c in g[id].connections && c.service == d;
    var j :| 0 <= j < |g[id].connections| && g[id].connections[j] == c;
    assert Providers(g[id])[j] == ApplyId(d);
    assert ApplyId(d) in p.steps[i].dependsOn;
  }

  /** Progress is dependency-closed: with a service, everything it connects to was applied before. */
  lemma ProgressIsClosed(p: Plan, machines: seq<Machine>, groups: seq<Group>, layers: seq<seq<Id>>, k: nat)
    requires PlannedBy(p, machines, groups, layers) && Runnable(p) && k <= |p.steps|
    ensures forall id :: id in AppliedBy(p, k) ==> id in ById(p.services) && Deps(ServiceOf(p, id)) <= AppliedBy(p, k)
  {
    AppliedAreServices(p, k);
    forall id, d | id in AppliedBy(p, k) && d in Deps(ServiceOf(p, id)) ensures d in AppliedBy(p, k) {
      var i := StepOf(p, k, id);
      ProviderBefore(p, machines, groups, layers, i, id, d);
      AppliedMonotone(p, i, k);
    }
  }

  /** The services on record belong to the plan, each together with all its providers. */
  ghost predicate ClosedIn(p: Plan, record: map<Id, Digest>)
    requires UniqueServices(p.services)
  {
    forall id :: id in record ==> id in ById(p.services) && Deps(ServiceOf(p, id)) <= record.Keys
  }

  ghost predicate Planned(p: Plan) {
    exists machines, groups, layers :: PlannedBy(p, machines, groups, layers)
  }

  /** After every walked apply each service that is on record as applied belongs to the plan. */
  lemma AppliedBelong(p: Plan, w: World, w': World, k: nat, finished: bool, changed: set<Id>, noise: set<Id>, id: Id)
    requires Runnable(p) && ApplyEffect(p, w, w', Walked(k, finished), changed, noise)
    requires w'.status.Some? && id in w'.status.value.services && w'.status.value.services[id] == ServiceState.Applied
    ensures exists s :: s in p.services && s.id == id
  {
    NoneDroppedIff(p, w.status);
    AppliedAreServices(p, k);
    if id in AppliedBy(p, k) {
      assert ById(p.services)[id] in p.services;
    } else {
      assert !Drops(p, w.status, id);
    }
  }

  lemma RunAppliedBelong(home: Homes, events: seq<Event>, worlds: seq<World>, n: nat, id: Id)
    requires Continues(home, events, worlds) && n < |events| && WalkedApply(events[n])
    requires worlds[n + 1].status.Some? && id in worlds[n + 1].status.value.services
    requires worlds[n + 1].status.value.services[id] == ServiceState.Applied
    ensures exists s :: s in events[n].plan.services && s.id == id
  {
    var e := events[n];
    assert Happens(home, e, worlds[n], worlds[n + 1]);
    AppliedBelong(e.plan, worlds[n], worlds[n + 1], e.outcome.steps, e.outcome.finished, e.changed, e.noise, id);
  }

  /** Every apply, stopped anywhere, leaves a closed record, or the old one when it was refused. */
  lemma RecordIsClosed(p: Plan, w: World, w': World, o: Outcome, changed: set<Id>, noise: set<Id>)
    requires Planned(p) && Runnable(p) && ApplyEffect(p, w, w', o, changed, noise)
    ensures if o.Walked? then ClosedIn(p, OnRecord(w')) else OnRecord(w') == OnRecord(w)
  {
    if o.Walked? {
      var machines, groups, layers :| PlannedBy(p, machines, groups, layers);
      RecordIsProgress(p, w, w', o, changed, noise);
      ProgressIsClosed(p, machines, groups, layers, o.steps);
    }
  }

  predicate WalkedApply(e: Event) {
    e.ApplyRun? && e.outcome.Walked?
  }

  /** The record holds what the last walked apply among the first `n` events left of its plan. */
  ghost predicate FromLastApply(events: seq<Event>, n: nat, record: map<Id, Digest>)
    requires n <= |events|
  {
    exists i :: 0 <= i < n && WalkedApply(events[i]) && UniqueServices(events[i].plan.services) &&
        ClosedIn(events[i].plan, record)
      && forall j :: i < j < n ==> !WalkedApply(events[j])
  }

  /** In every run the record is empty or closed in the plan of the last apply that started its walk. */
  lemma {:induction false} RunRecordIsClosed(home: Homes, events: seq<Event>, worlds: seq<World>, n: nat)
    requires Run(home, events, worlds) && n < |worlds|
    requires forall i :: 0 <= i < |events| && events[i].ApplyRun? ==> Planned(events[i].plan)
    ensures OnRecord(worlds[n]) == map[] || FromLastApply(events, n, OnRecord(worlds[n]))
  {
    if n > 0 {
      RunRecordIsClosed(home, events, worlds, n - 1);
      assert Happens(home, events[n - 1], worlds[n - 1], worlds[n]);
      if WalkedApply(events[n - 1]) {
        WalkCloses(home, events, n, worlds[n - 1], worlds[n]);
      } else {
        OtherEventsKeepRecord(home, events[n - 1], worlds[n - 1], worlds[n]);
        LastApplyStays(events, n, OnRecord(worlds[n - 1]));
      }
    }
  }

  lemma WalkCloses(home: Homes, events: seq<Event>, n: nat, w: World, w': World)
    requires 0 < n <= |events| && WalkedApply(events[n - 1]) && Planned(events[n - 1].plan) &&
             Happens(home, events[n - 1], w, w')
    ensures FromLastApply(events, n, OnRecord(w'))
  {
    var e := events[n - 1];
    RecordIsClosed(e.plan, w, w', e.outcome, e.changed, e.noise);
  }

  lemma LastApplyStays(events: seq<Event>, n: nat, record: map<Id, Digest>)
    requires 0 < n <= |events| && !WalkedApply(events[n - 1])
    ensures FromLastApply(events, n - 1, record) ==> FromLastApply(events, n, record)
  {
  }

  /** Apart from a walked apply, an event clears the record or leaves it. */
  lemma OtherEventsKeepRecord(home: Homes, e: Event, w: World, w': World)
    requires Happens(home, e, w, w') && !WalkedApply(e)
    ensures OnRecord(w') == OnRecord(w) || OnRecord(w') == map[]
  {
  }

  lemma RecordIsProgress(p: Plan, w: World, w': World, o: Outcome, changed: set<Id>, noise: set<Id>)
    requires Runnable(p) && ApplyEffect(p, w, w', o, changed, noise) && o.Walked?
    ensures o.steps <= |p.steps| && OnRecord(w').Keys == AppliedBy(p, o.steps)
  {
    AppliedAreServices(p, o.steps);
  }

  /** A service step comes after the gates of all earlier phases that have services. */
  lemma GatesFirst(p: Plan, machines: seq<Machine>, groups: seq<Group>, layers: seq<seq<Id>>, i: nat, phase: nat)
    requires PlannedBy(p, machines, groups, layers) && Contracted(p.services)
    requires i < |p.steps| && p.steps[i].id.ApplyId? && p.steps[i].id.service in ById(p.services)
    requires phase < PhaseOf(ById(p.services)[p.steps[i].id.service].kind) && Inhabited(ById(p.services), phase)
    ensures phase in GatedBy(p, i)
  {
    var g := ById(p.services);
    PlanSeparates(p.services, machines, layers);
    PlanCovers(g, machines, layers);
    GateEarlier(g, Ids(p.steps), i, phase);
    var k :| 0 <= k < i && Ids(p.steps)[k] == ReadinessId(phase);
    assert Ids(p.steps[..i])[k] == ReadinessId(phase);
  }

  lemma GateEarlier(g: map<Id, Service>, ids: seq<StepId>, i: nat, phase: nat)
    requires Separates(g, ids) && i < |ids| && ids[i].ApplyId? && ids[i].service in g
    requires ReadinessId(phase) in ids && phase < PhaseOf(g[ids[i].service].kind)
    ensures exists k :: 0 <= k < i && ids[k] == ReadinessId(phase)
  {
    var k :| 0 <= k < |ids| && ids[k] == ReadinessId(phase);
    assert !(i < k) && ids[i] != ids[k];
  }

  /**
   * Phase barriers in every run: when a container was started by an apply, the gate of every earlier
   * inhabited phase had passed in that same apply.
   */
  lemma NoServiceBeforeItsGates(p: Plan, machines: seq<Machine>, groups: seq<Group>, layers: seq<seq<Id>>, w: World,
                                w': World, k: nat, finished: bool, changed: set<Id>, noise: set<Id>, x: Slot,
                                    phase: nat)
    requires PlannedBy(p, machines, groups, layers) && Contracted(p.services) && Runnable(p)
    requires ApplyEffect(p, w, w', Walked(k, finished), changed, noise)
    requires x in w'.containers && !(x in w.containers && w'.containers[x] == w.containers[x])
    requires x.service in ById(p.services) && phase < PhaseOf(ServiceOf(p, x.service).kind)
    requires Inhabited(ById(p.services), phase)
    ensures phase in GatedBy(p, k) && phase in w'.status.value.readiness
  {
    var last := if k < |p.steps| then k + 1 else k;
    var i := StepOf(p, last, x.service);
    GatesFirst(p, machines, groups, layers, i, phase);
    AppliedMonotone(p, i, k);
  }
}
