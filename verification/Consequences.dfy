/** What follows from a state: applies that can begin there, and how a lie on record comes to be acted on. */
module Consequences {
  import opened Ordering
  import opened Model
  import opened Bundles
  import opened Plans
  import opened Effects
  import opened Runs

  // ---------------------------------------------------------------- an apply can begin anywhere

  /** The services an undisturbed apply selects. */
  ghost function Unsettled(p: Plan, desired: map<Id, Digest>, w: World): set<Id>
    requires Runnable(p)
  {
    set id | id in ById(p.services) && !(Recorded(w.status, desired, id) && SlotOf(p, ServiceOf(p, id)) in w.containers)
  }

  /** The world once that apply has cleared the record and then raised. */
  ghost function Begun(p: Plan, b: Bundle, w: World): World
    requires Runnable(p) && Rendered(p, b)
  {
    w.(bundle := Some(b), status := Some(StatusAfter(p, w.status, Desired(p, b), 0, false)))
  }

  lemma ApplyBegins(p: Plan, b: Bundle, w: World)
    requires Runnable(p) && Rendered(p, b) && NoneDropped(p, w.status)
    ensures ApplyEffect(p, w, Begun(p, b, w), Walked(0, false), Unsettled(p, Desired(p, b), w), {})
  {
    assert AppliedBy(p, 0) == {};
    assert Restarts(p, w, Begun(p, b, w), Desired(p, b), Unsettled(p, Desired(p, b), w), {}, 0);
  }

  /** A bundle with every service of the plan on the inputs `f`. */
  function AllOn(p: Plan, f: Digest): Bundle
    requires forall s :: s in p.services ==> s.id in p.groups
  {
    Bundle(Constant(set s | s in p.services :: SlotOf(p, s), f), map[], f, f)
  }

  lemma AllOnRenders(p: Plan, f: Digest)
    requires Runnable(p)
    ensures Rendered(p, AllOn(p, f)) && forall id :: id in ById(p.services) ==> Desired(p, AllOn(p, f))[id] == f
  {
    assert forall s :: s in p.services ==> SlotOf(p, s) in AllOn(p, f).inputs;
  }

  // ---------------------------------------------------------------- a plan for any set of services

  function ServiceAt(home: Homes, id: Id): Service {
    Service(id, home(id).kind, home(id).slot.machine, [], Configuration(None, None, ReadWrite, [], None, None, false),
        None, [])
  }

  /** A plan of services without connections, each at its home. */
  function PlanFor(home: Homes, ids: seq<Id>): Plan {
    Plan(
      seq(|ids|, i requires 0 <= i < |ids| => home(ids[i]).slot.machine),
      seq(|ids|, i requires 0 <= i < |ids| => ServiceAt(home, ids[i])),
      if ids == [] then map[] else map id | id in ids :: home(id).slot.group,
      seq(|ids|, i requires 0 <= i < |ids| =>
        PlanStep(ApplyId(ids[i]), Some(home(ids[i]).slot.machine), Some(home(ids[i]).slot.group), [])))
  }

  lemma PlanForServices(home: Homes, ids: seq<Id>)
    requires NoRepeats(ids)
    ensures UniqueServices(PlanFor(home, ids).services) && ById(PlanFor(home, ids).services).Keys == ToSet(ids)
    ensures forall id :: id in ids ==> ById(PlanFor(home, ids).services)[id] == ServiceAt(home, id)
  {
    var p := PlanFor(home, ids);
    forall id | id in ids ensures id in ById(p.services) && ById(p.services)[id] == ServiceAt(home, id) {
      var i :| 0 <= i < |ids| && ids[i] == id;
      assert p.services[i] in p.services;
    }
  }

  lemma PlanForSteps(home: Homes, ids: seq<Id>, id: Id)
    ensures ApplyId(id) in Ids(PlanFor(home, ids).steps) <==> id in ids
  {
    if id in ids {
      var i :| 0 <= i < |ids| && ids[i] == id;
      assert Ids(PlanFor(home, ids).steps)[i] == ApplyId(id);
    }
  }

  lemma PlanForPlaces(home: Homes, ids: seq<Id>, s: Service)
    requires s in PlanFor(home, ids).services
    ensures s == ServiceAt(home, s.id) && s.id in ids
    ensures s.id in PlanFor(home, ids).groups && s.machine in PlanFor(home, ids).machines
  {
    var p := PlanFor(home, ids);
    var i :| 0 <= i < |p.services| && p.services[i] == s;
    assert p.machines[i] == s.machine;
  }

  lemma PlanForRuns(home: Homes, ids: seq<Id>)
    requires OwnSlots(home) && NoRepeats(ids)
    ensures Runnable(PlanFor(home, ids)) && PlanAt(home, PlanFor(home, ids))
  {
    var p := PlanFor(home, ids);
    PlanForServices(home, ids);
    forall s | s in p.services ensures s.id in p.groups && s.machine in p.machines {
      PlanForPlaces(home, ids, s);
    }
    forall id ensures ApplyId(id) in Ids(p.steps) <==> id in ids {
      PlanForSteps(home, ids, id);
    }
  }

  lemma {:induction false} ListOf(ids: set<Id>) returns (s: seq<Id>)
    ensures NoRepeats(s) && ToSet(s) == ids
  {
    if ids == {} {
      s := [];
    } else {
      var id :| id in ids;
      var rest := ListOf(ids - {id});
      assert id !in ToSet(rest);
      s := [id] + rest;
      assert ToSet(s) == {id} + ToSet(rest);
    }
  }

  // ---------------------------------------------------------------- moving along

  lemma ContinuesAfter(home: Homes, e: Event, w: World, events: seq<Event>, worlds: seq<World>)
    requires Continues(home, events, worlds) && Happens(home, e, w, worlds[0])
    ensures Continues(home, [e] + events, [w] + worlds)
  {
    var es, ws := [e] + events, [w] + worlds;
    forall i, j | 0 <= i && j == i + 1 < |ws| ensures Happens(home, es[i], ws[i], ws[j]) {
      if i > 0 { assert Happens(home, events[i - 1], worlds[i - 1], worlds[i]); }
    }
  }

  lemma SafeInstance(home: Homes, w: World, events: seq<Event>, worlds: seq<World>, n: nat)
    requires SafeFrom(home, w) && Continues(home, events, worlds) && worlds[0] == w && n + 1 < |worlds|
    ensures Honours(events[n], worlds[n], worlds[n + 1])
  {
  }

  lemma LaterHonours(home: Homes, e: Event, w: World, events: seq<Event>, worlds: seq<World>, n: nat)
    requires SafeFrom(home, w) && Continues(home, events, worlds) && Happens(home, e, w, worlds[0]) && n + 1 < |worlds|
    ensures Honours(events[n], worlds[n], worlds[n + 1])
  {
    ContinuesAfter(home, e, w, events, worlds);
    SafeInstance(home, w, [e] + events, [w] + worlds, n + 1);
  }

  /** One step on, the promise still holds. */
  lemma SafeAlong(home: Homes, e: Event, w: World, w': World)
    requires SafeFrom(home, w) && Happens(home, e, w, w')
    ensures SafeFrom(home, w')
  {
    forall events, worlds, n, m | Continues(home, events, worlds) && worlds[0] == w' && 0 <= n && m == n + 1 < |worlds|
      ensures Honours(events[n], worlds[n], worlds[m])
    {
      LaterHonours(home, e, w, events, worlds, n);
    }
  }

  lemma OneEvent(home: Homes, e: Event, w: World, w': World)
    requires Happens(home, e, w, w')
    ensures Continues(home, [e], [w, w'])
  {
  }

  lemma BrokenPromise(home: Homes, e: Event, w: World, w': World)
    requires Happens(home, e, w, w') && !Honours(e, w, w')
    ensures !SafeFrom(home, w)
  {
    OneEvent(home, e, w, w');
    if SafeFrom(home, w) { SafeInstance(home, w, [e], [w, w'], 0); }
  }

  // ---------------------------------------------------------------- a lie on record is acted on

  /** The status records the service as applied, and its container is on other inputs. */
  ghost predicate Lies(home: Homes, w: World, id: Id) {
    && id in OnRecord(w) && id in Effects.Known(w.status).services && Effects.Known(w.status).services[id] == Applied
    && home(id).slot in w.containers && w.containers[home(id).slot] != OnRecord(w)[id]
  }

  /** A service recorded on `f` whose slot holds a container on other inputs: an apply asking for `f` skips it. */
  lemma StaleSlotIsSkipped(p: Plan, w: World, id: Id, f: Digest)
    requires Runnable(p) && id in ById(p.services) && Recorded(w.status, map[id := f], id)
    requires SlotOf(p, ServiceOf(p, id)) in w.containers && w.containers[SlotOf(p, ServiceOf(p, id))] != f
    ensures Rendered(p, AllOn(p, f)) && id !in Unsettled(p, Desired(p, AllOn(p, f)), w)
    ensures !SkipsDesired(p, w, Begun(p, AllOn(p, f), w), Unsettled(p, Desired(p, AllOn(p, f)), w))
  {
    AllOnRenders(p, f);
  }

  /** An applied service on record whose container is on other inputs: some apply skips it all the same. */
  lemma LieIsActedOn(home: Homes, w: World, id: Id)
    requires OwnSlots(home) && Lies(home, w, id)
    ensures !SafeFrom(home, w)
  {
    var f := OnRecord(w)[id];
    var ids := ListOf(Effects.Known(w.status).services.Keys);
    var p := PlanFor(home, ids);
    PlanForRuns(home, ids);
    PlanForServices(home, ids);
    assert id in ToSet(ids);
    StaleSlotIsSkipped(p, w, id, f);
    ApplyBegins(p, AllOn(p, f), w);
    var e := ApplyRun(p, Walked(0, false), Unsettled(p, Desired(p, AllOn(p, f)), w), {});
    assert Happens(home, e, w, Begun(p, AllOn(p, f), w));
    assert !Honours(e, w, Begun(p, AllOn(p, f), w));
    BrokenPromise(home, e, w, Begun(p, AllOn(p, f), w));
  }
}
