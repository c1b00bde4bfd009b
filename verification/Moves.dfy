/** Moving services between slots: exactly when a later apply can still be trusted. */
module Moves {
  import opened Ordering
  import opened Model
  import opened Bundles
  import opened Effects
  import opened Runs
  import opened Consequences
  import opened RunLimits

  /** The plan keeps every service where it was. */
  ghost predicate StaysPut(home: Homes, p: Plan)
    requires Runnable(p)
  {
    forall id :: id in ById(p.services) ==> SlotOf(p, ServiceOf(p, id)) == home(id).slot
  }

  /**
   * From every world that is sound for the old homes, every apply of the plan skips only services
   * on the desired inputs.
   */
  ghost predicate MoveIsSafe(home: Homes, p: Plan)
    requires Runnable(p)
  {
    forall w, w', o, changed, noise ::
      Sound(home, w) && ApplyEffect(p, w, w', o, changed, noise) && o.Walked? ==> SkipsDesired(p, w, w', changed)
  }

  /** A skipped service whose slot is its old home runs the desired inputs; it is no job. */
  lemma SkippedAtHome(home: Homes, p: Plan, w: World, w': World, o: Outcome, changed: set<Id>, noise: set<Id>, id: Id)
    requires Runnable(p) && Sound(home, w) && ApplyEffect(p, w, w', o, changed, noise) && o.Walked?
    requires id in ById(p.services) && id !in changed && SlotOf(p, ServiceOf(p, id)) == home(id).slot
    ensures home(id).slot in w.containers && w.containers[home(id).slot] == Desired(p, w'.bundle.value)[id]
    ensures !IsJob(home(id).kind) && Honest(w, home(id), Desired(p, w'.bundle.value)[id])
  {
    assert Recorded(w.status, Desired(p, w'.bundle.value), id);
    assert Honest(w, home(id), OnRecord(w)[id]);
  }

  // ---------------------------------------------------------------- a moved service can be skipped on other inputs

  /** The service is on record with `f`, and a container on other inputs stands at the slot the plan gives it. */
  function Stale(p: Plan, id: Id, f: Digest): World
    requires Runnable(p) && id in ById(p.services)
  {
    World(None, Some(Status(Complete, map[id := Applied], map[id := f], {})), map[],
          map[SlotOf(p, ServiceOf(p, id)) := Other(f)])
  }

  lemma StaleIsSound(home: Homes, p: Plan, id: Id, f: Digest)
    requires OwnSlots(home) && Runnable(p) && id in ById(p.services) && SlotOf(p, ServiceOf(p, id)) != home(id).slot
    ensures Sound(home, Stale(p, id, f))
  {
    assert SlotOf(p, ServiceOf(p, id)).service == id;
  }

  lemma StaleIsSkipped(p: Plan, id: Id, f: Digest)
    requires Runnable(p) && id in ById(p.services)
    ensures Rendered(p, AllOn(p, f))
    ensures var w := Stale(p, id, f); var w' := Begun(p, AllOn(p, f), w);
            var changed := Unsettled(p, Desired(p, AllOn(p, f)), w);
            ApplyEffect(p, w, w', Walked(0, false), changed, {}) && !SkipsDesired(p, w, w', changed)
  {
    AllOnRenders(p, f);
    assert NoneDropped(p, Stale(p, id, f).status);
    ApplyBegins(p, AllOn(p, f), Stale(p, id, f));
    StaleSlotIsSkipped(p, Stale(p, id, f), id, f);
  }

  lemma StayingIsSafe(home: Homes, p: Plan, w: World, w': World, o: Outcome, changed: set<Id>, noise: set<Id>)
    requires Runnable(p) && StaysPut(home, p)
    requires Sound(home, w) && ApplyEffect(p, w, w', o, changed, noise) && o.Walked?
    ensures SkipsDesired(p, w, w', changed)
  {
    forall id | id in ById(p.services) && id !in changed
      ensures SlotOf(p, ServiceOf(p, id)) in w.containers
      ensures w.containers[SlotOf(p, ServiceOf(p, id))] == Desired(p, w'.bundle.value)[id]
    {
      SkippedAtHome(home, p, w, w', o, changed, noise, id);
    }
  }

  lemma MovingIsUnsafe(home: Homes, p: Plan, id: Id)
    requires OwnSlots(home) && Runnable(p) && id in ById(p.services) && SlotOf(p, ServiceOf(p, id)) != home(id).slot
    ensures !MoveIsSafe(home, p)
  {
    var f := Digest("");
    AllOnRenders(p, f);
    StaleIsSound(home, p, id, f);
    StaleIsSkipped(p, id, f);
    var w := Stale(p, id, f);
    UnsafeInstance(home, p, w, Begun(p, AllOn(p, f), w), Walked(0, false), Unsettled(p, Desired(p, AllOn(p, f)), w),
        {});
  }

  lemma UnsafeInstance(home: Homes, p: Plan, w: World, w': World, o: Outcome, changed: set<Id>, noise: set<Id>)
    requires Runnable(p) && Sound(home, w) && ApplyEffect(p, w, w', o, changed, noise) && o.Walked? &&
             !SkipsDesired(p, w, w', changed)
    ensures !MoveIsSafe(home, p)
  {
  }

  /**
   * The assumption of fixed homes is exact: reuse after a move can be trusted, whatever sound state it
   * starts from, exactly when the plan keeps every service in its slot.
   */
  lemma MoveIsSafeIff(home: Homes, p: Plan)
    requires OwnSlots(home) && Runnable(p)
    ensures MoveIsSafe(home, p) <==> StaysPut(home, p)
  {
    if StaysPut(home, p) {
      forall w, w', o, changed, noise | Sound(home, w) && ApplyEffect(p, w, w', o, changed, noise) && o.Walked?
        ensures SkipsDesired(p, w, w', changed)
      {
        StayingIsSafe(home, p, w, w', o, changed, noise);
      }
    } else {
      var id :| id in ById(p.services) && SlotOf(p, ServiceOf(p, id)) != home(id).slot;
      MovingIsUnsafe(home, p, id);
    }
  }

  // ---------------------------------------------------------------- a move onto vacant slots

  /** No container stands at a slot that is not the service's old home. */
  ghost predicate Vacant(home: Homes, p: Plan, w: World)
    requires Runnable(p)
  {
    forall id :: id in ById(p.services) && SlotOf(p, ServiceOf(p, id)) in w.containers ==>
        SlotOf(p, ServiceOf(p, id)) == home(id).slot
  }

  /** Onto vacant slots every apply is safe, and whatever it records is true of the new homes. */
  lemma MoveOntoVacantSlots(home: Homes, next: Homes, p: Plan, w: World, w': World, o: Outcome, changed: set<Id>,
                            noise: set<Id>)
    requires OwnSlots(home) && OwnSlots(next) && Runnable(p) && PlanAt(next, p)
    requires Sound(home, w) && JobsLeaveNothing(next, w) && Vacant(home, p, w)
    requires ApplyEffect(p, w, w', o, changed, noise) && o.Walked?
    ensures SkipsDesired(p, w, w', changed) && Sound(next, w')
  {
    forall id | id in ById(p.services) && id !in changed
      ensures SlotOf(p, ServiceOf(p, id)) in w.containers
      ensures w.containers[SlotOf(p, ServiceOf(p, id))] == Desired(p, w'.bundle.value)[id]
    {
      SkippedAtHome(home, p, w, w', o, changed, noise, id);
    }
    MovedRecordIsHonest(home, next, p, w, w', o, changed, noise);
    JobsStillLeaveNothing(next, p, w, w', o, changed, noise);
  }

  lemma MovedRecordIsHonest(home: Homes, next: Homes, p: Plan, w: World, w': World, o: Outcome, changed: set<Id>,
                            noise: set<Id>)
    requires OwnSlots(next) && Runnable(p) && PlanAt(next, p) && Sound(home, w) && Vacant(home, p, w)
    requires ApplyEffect(p, w, w', o, changed, noise) && o.Walked?
    ensures forall id :: id in OnRecord(w') ==> Honest(w', next(id), OnRecord(w')[id])
  {
    forall id | id in OnRecord(w') ensures Honest(w', next(id), OnRecord(w')[id]) {
      RecordedByApply(p, w, w', o, changed, noise, id);
      if id in changed {
        MovedStart(next, p, w, w', o, changed, noise, id);
      } else {
        SkippedAtHome(home, p, w, w', o, changed, noise, id);
        SkippedStaysHonest(p, w, w', next(id), o.steps, changed, noise, id);
      }
    }
  }

  lemma RecordedByApply(p: Plan, w: World, w': World, o: Outcome, changed: set<Id>, noise: set<Id>, id: Id)
    requires Runnable(p) && ApplyEffect(p, w, w', o, changed, noise) && o.Walked? && id in OnRecord(w')
    ensures id in ById(p.services) && id in AppliedBy(p, o.steps) && o.steps > 0
    ensures OnRecord(w')[id] == Desired(p, w'.bundle.value)[id]
  {
    FirstStepStages(p, o.steps, id);
  }

  lemma MovedStart(next: Homes, p: Plan, w: World, w': World, o: Outcome, changed: set<Id>, noise: set<Id>, id: Id)
    requires OwnSlots(next) && Runnable(p) && PlanAt(next, p) && ApplyEffect(p, w, w', o, changed, noise) &&
             o.Walked? && o.steps > 0
    requires id in ById(p.services) && id in AppliedBy(p, o.steps) && id in changed
    ensures Honest(w', next(id), Desired(p, w'.bundle.value)[id])
  {
    ChangedIsHonest(next, p, w, w', o.steps, changed, noise, id);
  }

  lemma SkippedStaysHonest(p: Plan, w: World, w': World, h: Home, k: nat, changed: set<Id>, noise: set<Id>, id: Id)
    requires Runnable(p) && 0 < k <= |p.steps| && w'.bundle.Some? && Rendered(p, w'.bundle.value)
    requires id in ById(p.services) && id !in changed && h.slot == SlotOf(p, ServiceOf(p, id))
    requires Stages(p, w, w', Desired(p, w'.bundle.value), changed, k)
    requires Restarts(p, w, w', Desired(p, w'.bundle.value), changed, noise, k)
    requires h.slot in w.containers && w.containers[h.slot] == Desired(p, w'.bundle.value)[id]
    requires h.slot in w.staged ==> w.staged[h.slot] == Desired(p, w'.bundle.value)[id]
    ensures Honest(w', h, Desired(p, w'.bundle.value)[id])
  {
    assert ServiceOf(p, id) in p.services;
  }

  lemma JobsStillLeaveNothing(next: Homes, p: Plan, w: World, w': World, o: Outcome, changed: set<Id>, noise: set<Id>)
    requires OwnSlots(next) && Runnable(p) && PlanAt(next, p) && JobsLeaveNothing(next, w)
    requires ApplyEffect(p, w, w', o, changed, noise) && o.Walked?
    ensures JobsLeaveNothing(next, w')
  {
    forall id | IsJob(next(id).kind) ensures next(id).slot !in w'.containers {
      assert next(id).slot.service == id;
    }
  }

  // ---------------------------------------------------------------- the first move is safe, the way back is not

  /** Every container stands at its service's home. */
  ghost predicate AllHome(home: Homes, w: World) {
    forall x :: x in w.containers ==> x == home(x.service).slot
  }

  lemma {:induction false} RunsStayHome(home: Homes, events: seq<Event>, worlds: seq<World>, n: nat)
    requires OwnSlots(home) && Run(home, events, worlds) && n < |worlds|
    ensures AllHome(home, worlds[n])
  {
    if n > 0 {
      RunsStayHome(home, events, worlds, n - 1);
      EventStaysHome(home, events[n - 1], worlds[n - 1], worlds[n]);
    }
  }

  lemma EventStaysHome(home: Homes, e: Event, w: World, w': World)
    requires OwnSlots(home) && AllHome(home, w) && Happens(home, e, w, w')
    ensures AllHome(home, w')
  {
    match e
    case ApplyRun(p, o, changed, noise) => ApplyStaysHome(home, p, w, w', o, changed, noise);
    case _ =>
  }

  lemma ApplyStaysHome(home: Homes, p: Plan, w: World, w': World, o: Outcome, changed: set<Id>, noise: set<Id>)
    requires Runnable(p) && PlanAt(home, p) && AllHome(home, w) && ApplyEffect(p, w, w', o, changed, noise)
    ensures AllHome(home, w')
  {
  }

  /** From every state reachable with fixed homes, one move to anywhere is safe: nothing stands at the new slots. */
  lemma FirstMoveIsSafe(home: Homes, next: Homes, events: seq<Event>, worlds: seq<World>, n: nat, p: Plan,
                        w': World, o: Outcome, changed: set<Id>, noise: set<Id>)
    requires OwnSlots(home) && OwnSlots(next) && Run(home, events, worlds) && n < |worlds|
    requires Runnable(p) && PlanAt(next, p) && (forall id :: home(id).kind == next(id).kind)
    requires ApplyEffect(p, worlds[n], w', o, changed, noise) && o.Walked?
    ensures SkipsDesired(p, worlds[n], w', changed) && Sound(next, w')
  {
    ReuseIsSound(home, events, worlds, n);
    RunsStayHome(home, events, worlds, n);
    NoJobAnywhere(home, next, worlds[n]);
    assert Vacant(home, p, worlds[n]);
    MoveOntoVacantSlots(home, next, p, worlds[n], w', o, changed, noise);
  }

  lemma NoJobAnywhere(home: Homes, next: Homes, w: World)
    requires OwnSlots(next) && AllHome(home, w) && JobsLeaveNothing(home, w) &&
             (forall id :: home(id).kind == next(id).kind)
    ensures JobsLeaveNothing(next, w)
  {
    forall id | IsJob(next(id).kind) ensures next(id).slot !in w.containers {
      assert next(id).slot.service == id && IsJob(home(id).kind);
    }
  }

  /**
   * A fingerprint does not name the group. A service moved to another group of its machine and back
   * finds its first container, created from other inputs, and reuses it.
   */
  lemma MovedServiceIsReused(a: Single, b: Single, h: Digest, f: Digest)
    requires b == a.(group := b.group) && a.group != b.group && !IsJob(a.kind) && f != h
    ensures var w1 := a.AfterStart(FRESH, h); var w2 := b.AfterStart(w1, f); var w3 := a.AfterSkip(w2, f);
      && a.Starts(FRESH, w1) && b.Starts(w1, w2) && a.Skips(w2, w3)
      && OnRecord(w3) == map[a.service := f] && w3.containers[a.Place()] == h
      && !SkipsDesired(a.Only(), w2, w3, {})
  {
    var w1 := a.AfterStart(FRESH, h);
    SingleStart(a, FRESH, h);
    MovedAway(a, b, w1, h, f);
    MovedBack(a, b, w1, h, f);
    RecordedAfter(a, b, w1, f);
  }

  lemma MovedAway(a: Single, b: Single, w: World, h: Digest, f: Digest)
    requires b == a.(group := b.group) && f != h && w.status == Some(a.Records(h))
    ensures b.Starts(w, b.AfterStart(w, f))
  {
    assert b.Unrecorded(w.status, f);
    SingleStart(b, w, f);
  }

  lemma RecordedAfter(a: Single, b: Single, w: World, f: Digest)
    requires b == a.(group := b.group)
    ensures OnRecord(a.AfterSkip(b.AfterStart(w, f), f)) == map[a.service := f]
  {
  }

  lemma MovedBack(a: Single, b: Single, w: World, h: Digest, f: Digest)
    requires b == a.(group := b.group) && a.group != b.group && !IsJob(a.kind) && f != h
    requires a.Place() in w.containers && w.containers[a.Place()] == h
    ensures a.Skips(b.AfterStart(w, f), a.AfterSkip(b.AfterStart(w, f), f)) &&
            b.AfterStart(w, f).containers[a.Place()] == h
    ensures !SkipsDesired(a.Only(), b.AfterStart(w, f), a.AfterSkip(b.AfterStart(w, f), f), {})
  {
    var w2 := b.AfterStart(w, f);
    assert a.Place() != b.Place() && w2.containers[a.Place()] == h && w2.status == Some(a.Records(f));
    SingleSkip(a, w2, f);
    StaleSkip(a, w2, f);
  }
}
