/** Where sound reuse ends: exact conditions and concrete runs that break it. */
module RunLimits {
  import opened Ordering
  import opened Model
  import opened Bundles
  import opened Plans
  import opened Effects
  import opened Runs
  import opened Consequences

  // ---------------------------------------------------------------- a push that raises part way

  /** On the machines already staged, the bundle agrees with every fingerprint on record. */
  ghost predicate PushMatches(home: Homes, done: set<Id>, w: World)
    requires w.bundle.Some?
  {
    forall id ::
      (id in OnRecord(w) && !IsJob(home(id).kind) && home(id).slot.machine in done
       && home(id).slot in w.bundle.value.inputs) ==>
      w.bundle.value.inputs[home(id).slot] == OnRecord(w)[id]
  }

  /** What a copy cut short left on a machine in `hurt` agrees with the record, too. */
  ghost predicate HurtMatches(home: Homes, hurt: set<Id>, w: World) {
    forall id ::
      id in OnRecord(w) && !IsJob(home(id).kind) && home(id).slot.machine in hurt && home(id).slot in w.staged ==>
      w.staged[home(id).slot] == OnRecord(w)[id]
  }

  /** Every later `recreate` of a long-running service keeps the record truthful. */
  ghost predicate RecreateIsSafe(home: Homes, w: World) {
    forall id, after ::
      !IsJob(home(id).kind) && LifecycleEffect(home(id).slot, home(id).kind, Recreate, w, after, true) ==>
      Truthful(home, after)
  }

  function Recreated(slot: Slot, w: World): World
    requires slot in w.staged
  {
    w.(containers := w.containers[slot := w.staged[slot]],
       status := Some(Known(w.status).(services := Known(w.status).services[slot.service := Applied])))
  }

  /** A push stages before it clears the record, so raising in between is harmless only if nothing changed. */
  lemma InterruptedPushIsSafeIff(home: Homes, done: set<Id>, hurt: set<Id>, w: World, w': World)
    requires OwnSlots(home) && Sound(home, w) && InterruptedPush(done, hurt, w, w') && done !! hurt
    ensures PushMatches(home, done, w) && HurtMatches(home, hurt, w') <==> RecreateIsSafe(home, w')
    ensures PushMatches(home, done, w) && HurtMatches(home, hurt, w') <==> SafeFrom(home, w')
  {
    if PushMatches(home, done, w) && HurtMatches(home, hurt, w') {
      forall id | id in OnRecord(w') ensures Honest(w', home(id), OnRecord(w')[id]) {
        StillHonest(home, done, hurt, w, w', id);
      }
      SoundIsSafe(home, w');
      forall id, after | !IsJob(home(id).kind) &&
          LifecycleEffect(home(id).slot, home(id).kind, Recreate, w', after, true)
        ensures Truthful(home, after)
      {
        LifecycleKeepsSound(home, id, Recreate, w', after, true);
      }
    }
    if !PushMatches(home, done, w) {
      var id :| id in OnRecord(w) && !IsJob(home(id).kind) && home(id).slot.machine in done
        && home(id).slot in w.bundle.value.inputs && w.bundle.value.inputs[home(id).slot] != OnRecord(w)[id];
      assert StagedAt(w.bundle.value, w.staged, w'.staged, home(id).slot);
      RecreateLies(home, w', id);
    }
    if !HurtMatches(home, hurt, w') {
      var id :| id in OnRecord(w') && !IsJob(home(id).kind) && home(id).slot.machine in hurt
        && home(id).slot in w'.staged && w'.staged[home(id).slot] != OnRecord(w')[id];
      RecreateLies(home, w', id);
    }
  }

  lemma StillHonest(home: Homes, done: set<Id>, hurt: set<Id>, w: World, w': World, id: Id)
    requires Sound(home, w) && InterruptedPush(done, hurt, w, w') && id in OnRecord(w)
    requires PushMatches(home, done, w) && HurtMatches(home, hurt, w')
    ensures Honest(w', home(id), OnRecord(w)[id])
  {
    var slot := home(id).slot;
    assert Honest(w, home(id), OnRecord(w)[id]);
    assert slot.machine in done ==> StagedAt(w.bundle.value, w.staged, w'.staged, slot);
    assert slot.machine !in done && slot.machine !in hurt ==> SameAt(w.staged, w'.staged, slot);
  }

  /** A recreate from staged inputs other than the recorded ones makes the record a lie. */
  lemma RecreateLies(home: Homes, w: World, id: Id)
    requires OwnSlots(home)
    requires id in OnRecord(w) && !IsJob(home(id).kind) && home(id).slot in w.staged &&
             w.staged[home(id).slot] != OnRecord(w)[id]
    ensures !RecreateIsSafe(home, w) && !SafeFrom(home, w)
  {
    var after := Recreated(home(id).slot, w);
    assert LifecycleEffect(home(id).slot, home(id).kind, Recreate, w, after, true);
    assert OnRecord(after) == OnRecord(w);
    assert !Truthful(home, after);
    LieIsActedOn(home, after, id);
    if SafeFrom(home, w) { SafeAlong(home, LifecycleRun(id, Recreate, true), w, after); }
  }

  // ---------------------------------------------------------------- deployments of one service

  /** A deployment of one service without connections, in one group of one machine. */
  datatype Single = Single(service: Id, machine: Id, group: Id, kind: ServiceType) {
    function Place(): Slot { Slot(machine, group, service) }

    function Only(): Plan {
      Plan(
        [machine],
        [Service(service, kind, machine, [], Configuration(None, None, ReadWrite, [], None, None, false), None, [])],
        map[service := group],
        [PlanStep(ApplyId(service), Some(machine), Some(group), [])])
    }

    function Holds(f: Digest): Bundle {
      Bundle(map[Place() := f], map[], Digest("topology"), Digest("evidence"))
    }

    function Records(f: Digest): Status {
      Status(Complete, map[service := Applied], map[service := f], {})
    }

    /** The world after an undisturbed apply that (re)started the service on inputs `f`. */
    function AfterStart(w: World, f: Digest): World {
      World(Some(Holds(f)), Some(Records(f)), w.staged[Place() := f],
            if IsJob(kind) then w.containers else w.containers[Place() := f])
    }

    /** The world after an undisturbed apply that found nothing to do. */
    function AfterSkip(w: World, f: Digest): World {
      w.(bundle := Some(Holds(f)))
    }

    /** An apply (re)started the service and left `after`. */
    ghost predicate Starts(w: World, after: World) {
      Runnable(Only()) && ApplyEffect(Only(), w, after, Walked(1, true), {service}, {})
    }

    /** An apply skipped the service and left `after`. */
    ghost predicate Skips(w: World, after: World) {
      Runnable(Only()) && ApplyEffect(Only(), w, after, Walked(1, true), {}, {})
    }

    /** The status mentions no other service and no gate, and does not record the service on `f`. */
    ghost predicate Unrecorded(status: Option<Status>, f: Digest) {
      && Effects.Known(status).services.Keys <= {service} && Effects.Known(status).readiness == {}
      && !(service in Effects.Known(status).fingerprints && Effects.Known(status).fingerprints[service] == f)
    }
  }

  const FRESH := World(None, None, map[], map[])

  lemma SingleRuns(x: Single, f: Digest)
    ensures Runnable(x.Only()) && Rendered(x.Only(), x.Holds(f)) && Desired(x.Only(), x.Holds(f)) == map[x.service := f]
    ensures ById(x.Only().services).Keys == {x.service} && ServiceOf(x.Only(), x.service) == x.Only().services[0]
    ensures AppliedBy(x.Only(), 1) == {x.service} && GatedBy(x.Only(), 1) == {}
  {
    var p := x.Only();
    SingleApplies(x);
    assert Ids(p.steps) == [ApplyId(x.service)];
    assert p.services[0] in p.services;
  }

  lemma SingleApplies(x: Single)
    ensures |x.Only().steps| == 1 && AppliedBy(x.Only(), 1) == {x.service} && GatedBy(x.Only(), 1) == {}
  {
    var p := x.Only();
    assert p.steps[..1] == p.steps;
    assert Ids(p.steps[..0]) == [];
    AppliedStep(p, 0);
  }

  /** After its one step the status records the service, and it alone. */
  lemma SingleStatus(x: Single, before: Option<Status>, f: Digest)
    requires Known(before).services.Keys <= {x.service} && Known(before).readiness == {}
    ensures StatusAfter(x.Only(), before, map[x.service := f], 1, true) == x.Records(f)
  {
    SingleApplies(x);
    var s := StatusAfter(x.Only(), before, map[x.service := f], 1, true);
    assert s.services.Keys == {x.service} && s.services[x.service] == Applied;
    assert s.services == x.Records(f).services;
    assert s.fingerprints == x.Records(f).fingerprints;
  }

  lemma SingleKeeps(x: Single, before: Option<Status>)
    requires Known(before).services.Keys <= {x.service}
    ensures Runnable(x.Only()) && NoneDropped(x.Only(), before)
  {
    SingleRuns(x, Digest(""));
  }

  lemma SingleStart(x: Single, w: World, f: Digest)
    requires x.Unrecorded(w.status, f)
    ensures x.Starts(w, x.AfterStart(w, f))
  {
    SingleRuns(x, f);
    SingleStatus(x, w.status, f);
    SingleKeeps(x, w.status);
    SingleSelects(x, w, f);
    SingleStages(x, w, f);
    SingleRestarts(x, w, f);
    SingleWalk(x, w, x.AfterStart(w, f), f, {x.service});
  }

  lemma SingleWalk(x: Single, w: World, w': World, f: Digest, changed: set<Id>)
    requires Runnable(x.Only()) && NoneDropped(x.Only(), w.status) &&
             Selects(x.Only(), w, map[x.service := f], changed, {})
    requires ById(x.Only().services).Keys == {x.service} && w'.bundle == Some(x.Holds(f))
    requires w'.status == Some(StatusAfter(x.Only(), w.status, map[x.service := f], 1, true))
    requires Stages(x.Only(), w, w', map[x.service := f], changed, 1) &&
             Restarts(x.Only(), w, w', map[x.service := f], changed, {}, 1)
    ensures ApplyEffect(x.Only(), w, w', Walked(1, true), changed, {})
  {
    SingleRuns(x, f);
    WalkedEffect(x.Only(), x.Holds(f), w, w', 1, true, changed, {});
  }

  lemma SingleSelects(x: Single, w: World, f: Digest)
    requires x.Unrecorded(w.status, f)
    ensures Runnable(x.Only()) && Selects(x.Only(), w, map[x.service := f], {x.service}, {})
  {
    SingleRuns(x, f);
  }

  lemma SingleStages(x: Single, w: World, f: Digest)
    ensures Runnable(x.Only()) && ById(x.Only().services).Keys == {x.service}
    ensures Stages(x.Only(), w, x.AfterStart(w, f), map[x.service := f], {x.service}, 1)
  {
    SingleRuns(x, f);
    assert ChangedMachine(x.Only(), {x.service}, x.machine);
  }

  lemma SingleRestarts(x: Single, w: World, f: Digest)
    ensures Runnable(x.Only()) && ById(x.Only().services).Keys == {x.service}
    ensures Restarts(x.Only(), w, x.AfterStart(w, f), map[x.service := f], {x.service}, {}, 1)
  {
    SingleRuns(x, f);
  }

  /** With the container in place and the fingerprint on record, the service is skipped. */
  lemma SingleSkip(x: Single, w: World, f: Digest)
    requires w.status == Some(x.Records(f)) && x.Place() in w.containers
    ensures x.Skips(w, x.AfterSkip(w, f))
  {
    SingleRuns(x, f);
    SingleStatus(x, w.status, f);
    SingleKeeps(x, w.status);
    SkipSelects(x, w, f);
    SkipChangesNothing(x, w, f);
    SingleWalk(x, w, x.AfterSkip(w, f), f, {});
  }

  lemma SkipSelects(x: Single, w: World, f: Digest)
    requires w.status == Some(x.Records(f)) && x.Place() in w.containers
    ensures Runnable(x.Only()) && Selects(x.Only(), w, map[x.service := f], {}, {})
  {
    SingleRuns(x, f);
  }

  lemma SkipChangesNothing(x: Single, w: World, f: Digest)
    requires x.Place() in w.containers
    ensures Runnable(x.Only()) && ById(x.Only().services).Keys == {x.service}
    ensures Stages(x.Only(), w, x.AfterSkip(w, f), map[x.service := f], {}, 1)
    ensures Restarts(x.Only(), w, x.AfterSkip(w, f), map[x.service := f], {}, {}, 1)
  {
    SingleRuns(x, f);
  }

  /** A recorded service is recreated from what is staged; the status stays. */
  lemma SingleRecreate(x: Single, w: World, f: Digest)
    requires !IsOneShot(x.kind) && w.status == Some(x.Records(f)) && x.Place() in w.staged
    ensures LifecycleEffect(x.Place(), x.kind, Recreate, w, Recreated(x.Place(), w), true)
    ensures Recreated(x.Place(), w).status == w.status
  {
    assert x.Records(f).services[x.service := Applied] == x.Records(f).services;
  }

  /** A skip in a world whose container runs other inputs breaks the promise. */
  lemma StaleSkip(x: Single, w: World, f: Digest)
    requires w.status == Some(x.Records(f)) && x.Place() in w.containers && w.containers[x.Place()] != f
    ensures !SkipsDesired(x.Only(), w, x.AfterSkip(w, f), {})
  {
    SingleRuns(x, f);
    assert SlotOf(x.Only(), ServiceOf(x.Only(), x.service)) == x.Place();
  }

  function Other(f: Digest): (r: Digest)
    ensures r != f
  {
    assert |f.hex + ['0']| == |f.hex| + 1;
    Digest(f.hex + ['0'])
  }

  // ---------------------------------------------------------------- recreating a probe

  /** The single deployment that holds just this service at its home. */
  function At(home: Homes, id: Id): Single {
    Single(id, home(id).slot.machine, home(id).slot.group, home(id).kind)
  }

  lemma HomeIsPlace(home: Homes, id: Id)
    requires OwnSlots(home)
    ensures At(home, id).Place() == home(id).slot && Runnable(At(home, id).Only()) && PlanAt(home, At(home, id).Only())
  {
    SingleRuns(At(home, id), Digest(""));
  }

  /**
   * The worlds that follow when a job's container exists: another bundle, a push, an apply that
   * runs the job, an apply that skips it.
   */
  function AfterProbe(x: Single, w: World, g: Digest): (r: seq<World>)
    ensures |r| == 5 && r[0] == w
  {
    var prepared := w.(bundle := Some(x.Holds(g)));
    var pushed := prepared.(status := Some(Status(Pushed, map[], map[], {})));
    var ran := x.AfterStart(pushed, g);
    [w, prepared, pushed, ran, x.AfterSkip(ran, g)]
  }

  function ProbeEvents(x: Single): (r: seq<Event>)
    ensures |r| == 4
  {
    [PrepareRun, PushRun([]), ApplyRun(x.Only(), Walked(1, true), {x.service}, {}),
        ApplyRun(x.Only(), Walked(1, true), {}, {})]
  }

  lemma ProbeRuns(x: Single, w: World, g: Digest)
    ensures x.Starts(AfterProbe(x, w, g)[2], AfterProbe(x, w, g)[3])
  {
    SingleStart(x, AfterProbe(x, w, g)[2], g);
  }

  lemma ProbeSkips(x: Single, w: World, g: Digest)
    requires IsJob(x.kind) && x.Place() in w.containers && w.containers[x.Place()] != g
    ensures x.Skips(AfterProbe(x, w, g)[3], AfterProbe(x, w, g)[4])
    ensures !SkipsDesired(x.Only(), AfterProbe(x, w, g)[3], AfterProbe(x, w, g)[4], {})
  {
    var ran := AfterProbe(x, w, g)[3];
    assert ran.containers == w.containers && ran.status == Some(x.Records(g));
    SingleSkip(x, ran, g);
    StaleSkip(x, ran, g);
  }

  lemma FourSteps(home: Homes, events: seq<Event>, worlds: seq<World>)
    requires |events| == 4 && |worlds| == 5
    requires Happens(home, events[0], worlds[0], worlds[1]) && Happens(home, events[1], worlds[1], worlds[2])
    requires Happens(home, events[2], worlds[2], worlds[3]) && Happens(home, events[3], worlds[3], worlds[4])
    ensures Continues(home, events, worlds)
  {
    forall i, j | 0 <= i && j == i + 1 < |worlds| ensures Happens(home, events[i], worlds[i], worlds[j]) {
      assert i == 0 || i == 1 || i == 2 || i == 3;
    }
  }

  lemma SingleHappens(home: Homes, x: Single, changed: set<Id>, w: World, w': World)
    requires Runnable(x.Only()) && PlanAt(home, x.Only()) && ApplyEffect(x.Only(), w, w', Walked(1, true), changed, {})
    ensures Happens(home, ApplyRun(x.Only(), Walked(1, true), changed, {}), w, w')
  {
  }

  lemma PushHappens(home: Homes, x: Single, w: World, g: Digest)
    ensures Happens(home, PrepareRun, AfterProbe(x, w, g)[0], AfterProbe(x, w, g)[1])
    ensures Happens(home, PushRun([]), AfterProbe(x, w, g)[1], AfterProbe(x, w, g)[2])
  {
  }

  lemma ProbeContinues(home: Homes, id: Id, w: World, g: Digest)
    requires OwnSlots(home) && IsJob(home(id).kind) && home(id).slot in w.containers && w.containers[home(id).slot] != g
    ensures Continues(home, ProbeEvents(At(home, id)), AfterProbe(At(home, id), w, g))
  {
    var x := At(home, id);
    var worlds := AfterProbe(x, w, g);
    HomeIsPlace(home, id);
    PushHappens(home, x, w, g);
    ProbeRuns(x, w, g);
    SingleHappens(home, x, {x.service}, worlds[2], worlds[3]);
    ProbeSkips(x, w, g);
    SingleHappens(home, x, {}, worlds[3], worlds[4]);
    FourSteps(home, ProbeEvents(x), worlds);
  }

  /** A job with a container: some later run skips it although the container is on other inputs. */
  lemma JobContainerIsUnsafe(home: Homes, id: Id, w: World)
    requires OwnSlots(home) && IsJob(home(id).kind) && home(id).slot in w.containers
    ensures !SafeFrom(home, w)
  {
    var g := Other(w.containers[home(id).slot]);
    var x := At(home, id);
    var events, worlds := ProbeEvents(x), AfterProbe(x, w, g);
    HomeIsPlace(home, id);
    ProbeContinues(home, id, w, g);
    ProbeSkips(x, w, g);
    assert !Honours(events[3], worlds[3], worlds[4]);
  }

  /** After a successful recreate every later apply, in every run, skips only services on the desired inputs,
      exactly when its target is not the RPC probe. */
  lemma RecreateIsSafeIff(home: Homes, id: Id, w: World, w': World)
    requires OwnSlots(home) && Sound(home, w)
    requires LifecycleEffect(home(id).slot, home(id).kind, Recreate, w, w', true)
    ensures SafeFrom(home, w') <==> home(id).kind != RpcProbe
  {
    if home(id).kind != RpcProbe {
      LifecycleKeepsSound(home, id, Recreate, w, w', true);
      SoundIsSafe(home, w');
    } else {
      JobContainerIsUnsafe(home, id, w');
    }
  }

  /** The same boundary for the invariant behind that promise. */
  lemma RecreateKeepsSoundIff(home: Homes, id: Id, w: World, w': World)
    requires OwnSlots(home) && Sound(home, w)
    requires LifecycleEffect(home(id).slot, home(id).kind, Recreate, w, w', true)
    ensures Sound(home, w') <==> home(id).kind != RpcProbe
  {
    if home(id).kind != RpcProbe {
      LifecycleKeepsSound(home, id, Recreate, w, w', true);
    } else {
      assert home(id).slot in w'.containers;
    }
  }

  /**
   * The probe leaves no container when an apply runs it, but `recreate` starts one. After the inputs
   * change, an apply runs the job, records the new fingerprint, and the next apply takes the old
   * container for the new one.
   */
  lemma RecreatedProbeIsReused(x: Single, f: Digest, g: Digest)
    requires x.kind == RpcProbe && f != g
    ensures var w0 := x.AfterStart(FRESH, f); var w1 := Recreated(x.Place(), w0);
      var w2 := x.AfterStart(w1, g); var w3 := x.AfterSkip(w2, g);
      && x.Starts(FRESH, w0) && LifecycleEffect(x.Place(), x.kind, Recreate, w0, w1, true)
      && x.Starts(w1, w2) && x.Skips(w2, w3)
      && OnRecord(w3) == map[x.service := g] && w3.containers[x.Place()] == f
  {
    var w0 := x.AfterStart(FRESH, f);
    SingleStart(x, FRESH, f);
    SingleRecreate(x, w0, f);
    RecreatedWorld(x, f);
    JobStarts(x, Recreated(x.Place(), w0), f, g);
    JobSkips(x, Recreated(x.Place(), w0), g);
    ReusedWorld(x, Recreated(x.Place(), w0), f, g);
  }

  lemma JobStarts(x: Single, w: World, f: Digest, g: Digest)
    requires f != g && w.status == Some(x.Records(f))
    ensures x.Starts(w, x.AfterStart(w, g))
  {
    SingleStart(x, w, g);
  }

  lemma JobSkips(x: Single, w: World, g: Digest)
    requires IsJob(x.kind) && x.Place() in w.containers
    ensures x.Skips(x.AfterStart(w, g), x.AfterSkip(x.AfterStart(w, g), g))
  {
    SingleSkip(x, x.AfterStart(w, g), g);
  }

  lemma RecreatedWorld(x: Single, f: Digest)
    ensures var w := Recreated(x.Place(), x.AfterStart(FRESH, f));
      w.status == Some(x.Records(f)) && x.Place() in w.containers && w.containers[x.Place()] == f
  {
    assert x.Records(f).services[x.service := Applied] == x.Records(f).services;
  }

  lemma ReusedWorld(x: Single, w: World, f: Digest, g: Digest)
    requires IsJob(x.kind) && x.Place() in w.containers && w.containers[x.Place()] == f
    ensures var after := x.AfterSkip(x.AfterStart(w, g), g);
      OnRecord(after) == map[x.service := g] && x.Place() in after.containers && after.containers[x.Place()] == f
  {
  }

  // ---------------------------------------------------------------- an interrupted push that lies

  /** The worlds of a push interrupted after its only machine, a recreate, and an apply of the first bundle again. */
  function AfterPush(x: Single, f: Digest, g: Digest): (r: seq<World>)
    ensures |r| == 5
  {
    var started := x.AfterStart(FRESH, f);
    var prepared := started.(bundle := Some(x.Holds(g)));
    var cut := prepared.(staged := prepared.staged[x.Place() := g]);
    var recreated := Recreated(x.Place(), cut);
    [started, prepared, cut, recreated, x.AfterSkip(recreated, f)]
  }

  /** From nothing: start on f, prepare g, push until the host is staged and raise, recreate, apply f again.
      The push is not harmless, and the last apply skips a container on g. */
  lemma InterruptedPushCanLie(home: Homes, x: Single, f: Digest, g: Digest)
    requires f != g && !IsJob(x.kind) && OwnSlots(home) && home(x.service) == Home(x.Place(), x.kind)
    ensures Run(home, [ApplyRun(x.Only(), Walked(1, true), {x.service}, {}), PrepareRun],
            [FRESH, AfterPush(x, f, g)[0], AfterPush(x, f, g)[1]])
    ensures InterruptedPush({x.machine}, {}, AfterPush(x, f, g)[1], AfterPush(x, f, g)[2]) &&
            !PushMatches(home, {x.machine}, AfterPush(x, f, g)[1])
    ensures LifecycleEffect(x.Place(), x.kind, Recreate, AfterPush(x, f, g)[2], AfterPush(x, f, g)[3], true)
    ensures x.Skips(AfterPush(x, f, g)[3], AfterPush(x, f, g)[4]) && AfterPush(x, f, g)[3].containers[x.Place()] == g
    ensures !SkipsDesired(x.Only(), AfterPush(x, f, g)[3], AfterPush(x, f, g)[4], {})
  {
    var worlds := AfterPush(x, f, g);
    StartAndPrepare(home, x, f, g);
    PushLies(home, x, f, g);
    SingleRecreate(x, worlds[2], f);
    assert worlds[3].status == Some(x.Records(f));
    SingleSkip(x, worlds[3], f);
    StaleSkip(x, worlds[3], f);
  }

  lemma StartAndPrepare(home: Homes, x: Single, f: Digest, g: Digest)
    requires home(x.service) == Home(x.Place(), x.kind)
    ensures var w := x.AfterStart(FRESH, f);
      Run(home, [ApplyRun(x.Only(), Walked(1, true), {x.service}, {}), PrepareRun],
          [FRESH, w, w.(bundle := Some(x.Holds(g)))])
  {
    var w := x.AfterStart(FRESH, f);
    StartHappens(home, x, f);
    PrepareHappens(home, w, Some(x.Holds(g)));
    FreshSteps(home, ApplyRun(x.Only(), Walked(1, true), {x.service}, {}), PrepareRun, w,
        w.(bundle := Some(x.Holds(g))));
  }

  lemma StartHappens(home: Homes, x: Single, f: Digest)
    requires home(x.service) == Home(x.Place(), x.kind)
    ensures Happens(home, ApplyRun(x.Only(), Walked(1, true), {x.service}, {}), FRESH, x.AfterStart(FRESH, f))
  {
    SingleStart(x, FRESH, f);
    SingleAtHome(home, x);
    SingleHappens(home, x, {x.service}, FRESH, x.AfterStart(FRESH, f));
  }

  lemma PrepareHappens(home: Homes, w: World, bundle: Option<Bundle>)
    ensures Happens(home, PrepareRun, w, w.(bundle := bundle))
  {
  }

  lemma FreshSteps(home: Homes, a: Event, b: Event, v: World, w: World)
    requires Happens(home, a, FRESH, v) && Happens(home, b, v, w)
    ensures Run(home, [a, b], [FRESH, v, w])
  {
    TwoSteps(home, a, b, FRESH, v, w);
  }

  lemma SingleAtHome(home: Homes, x: Single)
    requires home(x.service) == Home(x.Place(), x.kind)
    ensures Runnable(x.Only()) && PlanAt(home, x.Only())
  {
    SingleRuns(x, Digest(""));
  }

  lemma TwoSteps(home: Homes, a: Event, b: Event, u: World, v: World, w: World)
    requires Happens(home, a, u, v) && Happens(home, b, v, w)
    ensures Continues(home, [a, b], [u, v, w])
  {
    var events, worlds := [a, b], [u, v, w];
    forall i, j | 0 <= i && j == i + 1 < |worlds| ensures Happens(home, events[i], worlds[i], worlds[j]) {
      assert i == 0 || i == 1;
    }
  }

  lemma PushLies(home: Homes, x: Single, f: Digest, g: Digest)
    requires f != g && !IsJob(x.kind) && home(x.service) == Home(x.Place(), x.kind)
    ensures InterruptedPush({x.machine}, {}, AfterPush(x, f, g)[1], AfterPush(x, f, g)[2]) &&
            !PushMatches(home, {x.machine}, AfterPush(x, f, g)[1])
  {
    var w := AfterPush(x, f, g)[1];
    assert x.service in OnRecord(w) && home(x.service).slot in w.bundle.value.inputs;
  }
}
