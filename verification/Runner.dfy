/** The imperative apply, push and lifecycle commands, over the disk and the hosts they drive. */
module Runner {
  import opened Ordering
  import opened Model
  import opened Bundles
  import opened Plans
  import opened Effects
  import opened Runs

  /** The machines: what is staged on them and which containers exist. Every command may fail. */
  class Hosts {
    var staged: map<Slot, Digest>
    var containers: map<Slot, Digest>

    constructor ()
      ensures staged == map[] && containers == map[]
    {
      staged, containers := map[], map[];
    }

    /** Copy one machine's bundle; an exception can leave that machine's copy in any state. */
    method Stage(machine: Id, b: Bundle, calm: bool) returns (ok: bool)
      modifies this`staged
      ensures forall x: Slot :: x.machine != machine ==> SameAt(old(staged), staged, x)
      ensures ok ==> StagedOn(machine, b, old(staged), staged)
      ensures calm ==> ok
    {
      ok := Attempt(calm);
      if ok {
        var leftovers: set<Slot> := *;
        staged := staged - (set x | x in staged && x.machine == machine && x !in leftovers)
                  + Restrict(b.inputs, set x | x in b.inputs && x.machine == machine);
      } else {
        var damage: map<Slot, Digest> := *;
        staged := staged - (set x | x in staged && x.machine == machine)
                  + Restrict(damage, set x | x in damage && x.machine == machine);
      }
    }

    /** `docker compose up -d` (or a forced recreate): on success the container runs the staged inputs. */
    method Up(slot: Slot, calm: bool) returns (ok: bool)
      modifies this`containers
      ensures ok ==> slot in staged && containers == old(containers)[slot := staged[slot]]
      ensures !ok ==> || containers == old(containers) || containers == old(containers) - {slot}
                      || (slot in staged && containers == old(containers)[slot := staged[slot]])
      ensures calm && slot in staged ==> ok
    {
      ok := Attempt(calm);
      if slot !in staged { return false; }
      var removed: bool := *;
      if removed || ok { containers := containers - {slot}; }
      var created: bool := *;
      if created || ok { containers := containers[slot := staged[slot]]; }
    }

    /** `docker compose rm --stop --force`. */
    method Down(slot: Slot, calm: bool) returns (ok: bool)
      modifies this`containers
      ensures ok ==> containers == old(containers) - {slot}
      ensures !ok ==> containers == old(containers) || containers == old(containers) - {slot}
      ensures calm ==> ok
    {
      ok := Attempt(calm);
      var removed: bool := *;
      if removed || ok { containers := containers - {slot}; }
    }

    /** `docker compose ps -a`: finds only containers that exist; a failed query finds nothing. */
    method Exists(slot: Slot, calm: bool) returns (found: bool)
      ensures found ==> slot in containers
      ensures calm ==> (found <==> slot in containers)
    {
      found := Attempt(calm);
      if slot !in containers { found := false; }
    }

    /** Containers removed from outside at any moment, except during a calm call. */
    method Disturb(calm: bool) returns (lost: set<Slot>)
      modifies this`containers
      ensures containers == old(containers) - lost
      ensures calm ==> lost == {}
    {
      lost := *;
      if calm { lost := {}; }
      containers := containers - lost;
    }
  }

  // ---------------------------------------------------------------- facts about containers

  function Services(slots: set<Slot>): set<Id> {
    set x | x in slots :: x.service
  }

  lemma DisturbKeeps(p: Plan, before: map<Slot, Digest>, now: map<Slot, Digest>, desired: map<Id, Digest>,
                     changed: set<Id>, noise: set<Id>, done: set<Id>, touched: set<Id>, lost: set<Slot>)
    requires Runnable(p) && desired.Keys == ById(p.services).Keys
    requires RestartsTo(p, before, now, desired, changed, noise, done, touched)
    ensures RestartsTo(p, before, now - lost, desired, changed, noise + Services(lost), done, touched)
  {
    var after := now - lost;
    forall id | id in done && id in changed && id in ById(p.services) && !IsJob(ServiceOf(p, id).kind)
      ensures RunsDesired(p, after, desired, noise + Services(lost), id)
    {
      assert RunsDesired(p, now, desired, noise, id);
      assert SlotOf(p, ServiceOf(p, id)).service == id;
    }
    forall id | id in ById(p.services) && id !in changed && id !in noise + Services(lost)
      ensures SlotOf(p, ServiceOf(p, id)) in after
    {
      assert SlotOf(p, ServiceOf(p, id)).service == id;
    }
  }

  /** What starting a service can do to its own slot. */
  ghost predicate Upped(now: map<Slot, Digest>, after: map<Slot, Digest>, slot: Slot, digest: Digest, ok: bool) {
    if ok then after == now[slot := digest] else after == now || after == now - {slot} || after == now[slot := digest]
  }

  lemma UpStarted(p: Plan, before: map<Slot, Digest>, now: map<Slot, Digest>, after: map<Slot, Digest>,
                  desired: map<Id, Digest>, changed: set<Id>, touched: set<Id>, id: Id, ok: bool, x: Slot)
    requires Runnable(p) && desired.Keys == ById(p.services).Keys
    requires id in changed && id in ById(p.services) && !IsJob(ServiceOf(p, id).kind)
    requires Upped(now, after, SlotOf(p, ServiceOf(p, id)), desired[id], ok) && x in after
    requires x in now ==> (x in before && now[x] == before[x]) || Started(p, desired, changed, touched, x, now[x])
    ensures (x in before && after[x] == before[x]) || Started(p, desired, changed, touched + {id}, x, after[x])
  {
    assert SlotOf(p, ServiceOf(p, id)).service == id;
  }

  lemma UpRuns(p: Plan, now: map<Slot, Digest>, after: map<Slot, Digest>, desired: map<Id, Digest>, noise: set<Id>,
               id: Id, ok: bool, other: Id)
    requires Runnable(p) && desired.Keys == ById(p.services).Keys && id in ById(p.services) && other in ById(p.services)
    requires Upped(now, after, SlotOf(p, ServiceOf(p, id)), desired[id], ok)
    ensures other != id && RunsDesired(p, now, desired, noise, other) ==> RunsDesired(p, after, desired, noise, other)
    ensures other != id ==> (SlotOf(p, ServiceOf(p, other)) in after <==> SlotOf(p, ServiceOf(p, other)) in now)
    ensures ok ==> RunsDesired(p, after, desired, noise, id)
  {
    assert SlotOf(p, ServiceOf(p, id)).service == id && SlotOf(p, ServiceOf(p, other)).service == other;
  }

  lemma UpKeeps(p: Plan, before: map<Slot, Digest>, now: map<Slot, Digest>, after: map<Slot, Digest>,
                desired: map<Id, Digest>, changed: set<Id>, noise: set<Id>, done: set<Id>, touched: set<Id>, id: Id,
                    ok: bool)
    requires Runnable(p) && desired.Keys == ById(p.services).Keys
    requires RestartsTo(p, before, now, desired, changed, noise, done, touched)
    requires id in changed && id in ById(p.services) && !IsJob(ServiceOf(p, id).kind) && (ok || id !in done)
    requires Upped(now, after, SlotOf(p, ServiceOf(p, id)), desired[id], ok)
    ensures RestartsTo(p, before, after, desired, changed, noise, if ok then done + {id} else done, touched + {id})
  {
    forall x | x in after
      ensures (x in before && after[x] == before[x]) || Started(p, desired, changed, touched + {id}, x, after[x])
    {
      UpStarted(p, before, now, after, desired, changed, touched, id, ok, x);
    }
    forall other | other in ById(p.services)
      ensures other in (if ok then done + {id} else done) && other in changed && !IsJob(ServiceOf(p, other).kind) ==>
              RunsDesired(p, after, desired, noise, other)
      ensures other !in changed && other !in noise ==> SlotOf(p, ServiceOf(p, other)) in after
    {
      UpRuns(p, now, after, desired, noise, id, ok, other);
    }
  }

  /** A step that starts no container only moves the bookkeeping. */
  lemma StepKeeps(p: Plan, before: map<Slot, Digest>, now: map<Slot, Digest>, desired: map<Id, Digest>,
                  changed: set<Id>, noise: set<Id>, done: set<Id>, touched: set<Id>, ids: set<Id>, moreTouched: set<Id>)
    requires Runnable(p) && desired.Keys == ById(p.services).Keys
    requires RestartsTo(p, before, now, desired, changed, noise, done, touched)
    requires forall id :: id in ids && id in changed && id in ById(p.services) ==> IsJob(ServiceOf(p, id).kind)
    ensures RestartsTo(p, before, now, desired, changed, noise, done + ids, touched + moreTouched)
  {
    forall x | x in now
      ensures (x in before && now[x] == before[x]) || Started(p, desired, changed, touched + moreTouched, x, now[x])
    {
      assert Started(p, desired, changed, touched, x, now[x]) ==>
          Started(p, desired, changed, touched + moreTouched, x, now[x]);
    }
  }

  /** Recording a service step adds exactly that service and its fingerprint. */
  lemma ServiceRecorded(p: Plan, before: Option<Status>, desired: map<Id, Digest>, k: nat, id: Id)
    requires k < |p.steps| && p.steps[k].id == ApplyId(id) && id in desired
    ensures var s := StatusAfter(p, before, desired, k, false);
      StatusAfter(p, before, desired, k + 1, false) ==
        s.(services := s.services[id := Applied], fingerprints := s.fingerprints[id := desired[id]])
  {
    AppliedStep(p, k);
    ApplyMaps(AppliedBy(p, k), id, Known(before).services, desired);
  }

  lemma ApplyMaps(ids: set<Id>, id: Id, services: map<Id, ServiceState>, desired: map<Id, Digest>)
    requires id in desired
    ensures services + Constant(ids + {id}, Applied) == (services + Constant(ids, Applied))[id := Applied]
    ensures Restrict(desired, ids + {id}) == Restrict(desired, ids)[id := desired[id]]
  {
  }

  lemma GateRecorded(p: Plan, before: Option<Status>, desired: map<Id, Digest>, k: nat, phase: nat)
    requires k < |p.steps| && p.steps[k].id == ReadinessId(phase)
    ensures var s := StatusAfter(p, before, desired, k, false);
      StatusAfter(p, before, desired, k + 1, false) == s.(readiness := s.readiness + {phase})
  {
    AppliedStep(p, k);
    assert AppliedBy(p, k + 1) == AppliedBy(p, k);
    assert Known(before).readiness + (GatedBy(p, k) + {phase}) == Known(before).readiness + GatedBy(p, k) + {phase};
  }

  lemma CheckRecorded(p: Plan, before: Option<Status>, desired: map<Id, Digest>, k: nat)
    requires k < |p.steps| && !p.steps[k].id.ApplyId? && !p.steps[k].id.ReadinessId?
    ensures StatusAfter(p, before, desired, k + 1, false) == StatusAfter(p, before, desired, k, false)
  {
    AppliedStep(p, k);
    assert AppliedBy(p, k + 1) == AppliedBy(p, k) && GatedBy(p, k + 1) == GatedBy(p, k);
  }

  lemma StatusStart(p: Plan, before: Option<Status>, desired: map<Id, Digest>)
    ensures StatusAfter(p, before, desired, 0, false) ==
            Status(Running, Known(before).services, map[], Known(before).readiness)
  {
    assert Ids(p.steps[..0]) == [];
  }

  lemma NoneApplied(p: Plan)
    ensures AppliedBy(p, 0) == {}
  {
  }

  // ---------------------------------------------------------------- the commands

  /** What an apply wrote to `status.json`, write by write: one entry per step reached. */
  ghost predicate Progressed(p: Plan, before: Option<Status>, desired: map<Id, Digest>, written: seq<Status>) {
    forall i :: 0 <= i < |written| ==> Snapshot(p, before, desired, written[i])
  }

  ghost predicate Snapshot(p: Plan, before: Option<Status>, desired: map<Id, Digest>, s: Status) {
    exists k, finished :: 0 <= k <= |p.steps| && s == StatusAfter(p, before, desired, k, finished)
  }

  /** Every status an apply of a planned deployment writes is closed: no service without all its providers. */
  lemma WritesAreClosed(p: Plan, before: Option<Status>, desired: map<Id, Digest>, written: seq<Status>, i: nat)
    requires Planned(p) && Runnable(p) && desired.Keys == ById(p.services).Keys
    requires Progressed(p, before, desired, written) && i < |written|
    ensures ClosedIn(p, written[i].fingerprints)
  {
    assert Snapshot(p, before, desired, written[i]);
    var k, finished :| 0 <= k <= |p.steps| && written[i] == StatusAfter(p, before, desired, k, finished);
    StepsAreClosed(p, before, desired, k, finished);
  }

  lemma StepsAreClosed(p: Plan, before: Option<Status>, desired: map<Id, Digest>, k: nat, finished: bool)
    requires Planned(p) && Runnable(p) && desired.Keys == ById(p.services).Keys && k <= |p.steps|
    ensures ClosedIn(p, StatusAfter(p, before, desired, k, finished).fingerprints)
  {
    var machines, groups, layers :| PlannedBy(p, machines, groups, layers);
    AppliedAreServices(p, k);
    ProgressIsClosed(p, machines, groups, layers, k);
  }

  /** The bundle is there to resume from, or nothing is in the way of preparing it. */
  ghost predicate Preparable(resume: bool, next: Bundle, sha: Index -> Digest, d: Disk) {
    (resume && d.bundle.Some?) || !Blocked(d, sha(IndexOf(next)))
  }

  class Controller {
    const store: BundleStore
    const hosts: Hosts
    var status: Option<Status>
    ghost var writes: seq<Status>   // everything ever written to status.json

    constructor (store: BundleStore, hosts: Hosts)
      ensures this.store == store && this.hosts == hosts && status == None && writes == []
    {
      this.store, this.hosts := store, hosts;
      status := None;
      writes := [];
    }

    ghost function Installed(): Option<Bundle>
      reads this, store
    {
      if store.bundle.Some? && store.bundle.value.Whole? then Some(store.bundle.value.content) else None
    }

    ghost function W(): World
      reads this, store, hosts
    {
      World(Installed(), status, hosts.staged, hosts.containers)
    }

    /** `write_status`: a temporary file, then an atomic replace. */
    method WriteStatus(s: Status, calm: bool) returns (ok: bool)
      modifies this`status, this`writes
      ensures ok ==> status == Some(s) && writes == old(writes) + [s]
      ensures !ok ==> status == old(status) && writes == old(writes)
      ensures calm ==> ok
    {
      ok := Attempt(calm);
      if ok {
        status := Some(s);
        writes := writes + [s];
      }
    }

    /** Decide which services to (re)start: those not recorded as desired, then those without a container. */
    method SelectChanged(p: Plan, desired: map<Id, Digest>, calm: bool)
      returns (ok: bool, changed: set<Id>, ghost noise: set<Id>)
      requires Runnable(p) && desired.Keys == ById(p.services).Keys
      modifies hosts`containers
      ensures OnlyLost(old(hosts.containers), hosts.containers)
      ensures ok ==> Selects(p, old(W()), desired, changed, noise)
      ensures calm ==> forall s :: s in p.services ==>
        (s.id !in changed <==>
           AppliedWith(status, s.id, desired[s.id]) && Slot(s.machine, p.groups[s.id], s.id) in old(hosts.containers))
      ensures calm ==> ok && noise == {}
      ensures ok ==> RestartsTo(p, old(hosts.containers), hosts.containers, desired, changed, noise, {}, {})
    {
      changed := set id | id in ById(p.services) && !Recorded(status, desired, id);
      noise := {};
      for n := 0 to |p.services|
        invariant Probed(p, status, desired, old(hosts.containers), hosts.containers, changed, noise, n)
        invariant calm ==> noise == {}
      {
        ghost var before := hosts.containers;
        var lost := hosts.Disturb(calm);
        ProbeDisturbed(p, status, desired, old(hosts.containers), before, changed, noise, n, lost);
        noise := noise + Services(lost);
        ok := Attempt(calm);
        if !ok { return false, changed, noise; }
        var s := p.services[n];
        var found := true;
        if s.id !in changed {
          found := hosts.Exists(SlotOf(p, s), calm);
        }
        if !found && SlotOf(p, s) in hosts.containers { noise := noise + {s.id}; }
        ProbeStep(p, status, desired, old(hosts.containers), hosts.containers, changed, noise, n, found);
        if !found { changed := changed + {s.id}; }
      }
      ProbedAll(p, status, desired, old(hosts.containers), hosts.containers, changed, noise);
      if calm { CalmSelection(p, old(W()), desired, changed); }
      return true, changed, noise;
    }

    /** Stage every machine that hosts a changed service. */
    method StageChanged(p: Plan, b: Bundle, changed: set<Id>, calm: bool) returns (ok: bool)
      requires Runnable(p) && Rendered(p, b)
      modifies hosts`staged
      ensures forall x: Slot :: !ChangedMachine(p, changed, x.machine) ==> SameAt(old(hosts.staged), hosts.staged, x)
      ensures ok ==> Carries(p, b, changed, ToSet(p.machines), hosts.staged)
      ensures calm ==> ok
    {
      var changedMachines := set s | s in p.services && s.id in changed :: s.machine;
      for n := 0 to |p.machines|
        invariant forall x: Slot :: !ChangedMachine(p, changed, x.machine) ==>
                  SameAt(old(hosts.staged), hosts.staged, x)
        invariant Carries(p, b, changed, ToSet(p.machines[..n]), hosts.staged)
      {
        if p.machines[n] in changedMachines {
          ghost var was := hosts.staged;
          ok := hosts.Stage(p.machines[n], b, calm);
          if !ok { return false; }
          CarriesMore(p, b, changed, ToSet(p.machines[..n]), p.machines[n], was, hosts.staged);
        }
        assert ToSet(p.machines[..n + 1]) == ToSet(p.machines[..n]) + {p.machines[n]};
      }
      assert p.machines[..|p.machines|] == p.machines;
      return true;
    }

    /** Run one step of the plan; a changed service is started, or its job run. */
    method Perform(p: Plan, desired: map<Id, Digest>, changed: set<Id>, k: nat, calm: bool) returns (ok: bool)
      requires Runnable(p) && desired.Keys == ById(p.services).Keys && k < |p.steps|
      requires Supplied(p, desired, changed, hosts.staged)
      modifies hosts`containers
      ensures var step := p.steps[k].id;
        if step.ApplyId? && step.service in changed && step.service in desired &&
            !IsJob(ServiceOf(p, step.service).kind) then
          var slot := SlotOf(p, ServiceOf(p, step.service));
          && (ok ==> hosts.containers == old(hosts.containers)[slot := desired[step.service]])
          && (!ok ==> || hosts.containers == old(hosts.containers) || hosts.containers == old(hosts.containers) - {slot}
                      || hosts.containers == old(hosts.containers)[slot := desired[step.service]])
        else hosts.containers == old(hosts.containers)
      ensures calm ==> ok
    {
      ok := Attempt(calm);    // preflight, network check, readiness probe, or `run --rm`
      match p.steps[k].id
      case ApplyId(id) =>
        if id in changed && id in desired && !IsJob(ServiceOf(p, id).kind) {
          ok := hosts.Up(SlotOf(p, ServiceOf(p, id)), calm);
        }
      case _ =>
    }

    /** One step, with the outside world free to remove containers before it. */
    method RunStep(p: Plan, desired: map<Id, Digest>, changed: set<Id>, k: nat, calm: bool,
                   ghost containers: map<Slot, Digest>, ghost disturbed: set<Id>)
      returns (ok: bool, ghost noise: set<Id>)
      requires Runnable(p) && desired.Keys == ById(p.services).Keys && k < |p.steps|
      requires Supplied(p, desired, changed, hosts.staged)
      requires RestartsTo(p, containers, hosts.containers, desired, changed, disturbed, AppliedBy(p, k),
               AppliedBy(p, k))
      modifies hosts`containers
      ensures disturbed <= noise
      ensures RestartsTo(p, containers, hosts.containers, desired, changed, noise,
                         AppliedBy(p, if ok then k + 1 else k), AppliedBy(p, k + 1))
      ensures calm ==> ok && noise == disturbed
    {
      ghost var seen := hosts.containers;
      var lost := hosts.Disturb(calm);
      DisturbKeeps(p, containers, seen, desired, changed, disturbed, AppliedBy(p, k), AppliedBy(p, k), lost);
      noise := disturbed + Services(lost);
      seen := hosts.containers;
      ok := Perform(p, desired, changed, k, calm);
      PerformKeeps(p, containers, seen, hosts.containers, desired, changed, noise, k, ok);
    }

    /** One step and the status write after it. */
    method TakeStep(p: Plan, desired: map<Id, Digest>, changed: set<Id>, memory: Status, k: nat, calm: bool,
                    ghost before: Option<Status>, ghost containers: map<Slot, Digest>, ghost disturbed: set<Id>,
                        ghost start: seq<Status>, ghost written: seq<Status>)
      returns (ok: bool, next: Status, ghost noise: set<Id>, ghost more: seq<Status>)
      requires Runnable(p) && desired.Keys == ById(p.services).Keys && k < |p.steps|
      requires forall id :: id in desired && id !in changed ==> Recorded(before, desired, id)
      requires Supplied(p, desired, changed, hosts.staged)
      requires memory == StatusAfter(p, before, desired, k, false) && status == Some(memory)
      requires RestartsTo(p, containers, hosts.containers, desired, changed, disturbed, AppliedBy(p, k),
               AppliedBy(p, k))
      requires writes == start + written && Progressed(p, before, desired, written)
      modifies this`status, this`writes, hosts`containers
      ensures disturbed <= noise
      ensures next == StatusAfter(p, before, desired, if ok then k + 1 else k, false) && status == Some(next)
      ensures RestartsTo(p, containers, hosts.containers, desired, changed, noise,
              AppliedBy(p, if ok then k + 1 else k), AppliedBy(p, k + 1))
      ensures writes == start + more && Progressed(p, before, desired, more)
      ensures calm ==> ok && noise == disturbed
    {
      next, more := memory, written;
      ok, noise := RunStep(p, desired, changed, k, calm, containers, disturbed);
      if ok {
        var advanced;
        ok, advanced := RecordStep(p, desired, changed, memory, k, calm, before);
        if ok {
          next := advanced;
          ProgressedMore(p, before, desired, written, k + 1, false);
          more := written + [next];
        } else {
          UnrecordedStep(p, containers, hosts.containers, desired, changed, noise, k);
        }
      }
    }

    /** The status write after a step. */
    method RecordStep(p: Plan, desired: map<Id, Digest>, changed: set<Id>, memory: Status, k: nat, calm: bool,
                      ghost before: Option<Status>)
      returns (ok: bool, next: Status)
      requires Runnable(p) && desired.Keys == ById(p.services).Keys && k < |p.steps|
      requires forall id :: id in desired && id !in changed ==> Recorded(before, desired, id)
      requires memory == StatusAfter(p, before, desired, k, false)
      modifies this`status, this`writes
      ensures next == StatusAfter(p, before, desired, k + 1, false)
      ensures ok ==> status == Some(next) && writes == old(writes) + [next]
      ensures !ok ==> status == old(status) && writes == old(writes)
      ensures calm ==> ok
    {
      AdvanceIsNext(p, before, desired, changed, k);
      next := Advance(memory, desired, changed, p.steps[k].id);
      ok := WriteStatus(next, calm);
    }

    /** Walk the plan's steps in order, writing the status after each. */
    method Walk(p: Plan, desired: map<Id, Digest>, changed: set<Id>, calm: bool, ghost before: Option<Status>,
                ghost containers: map<Slot, Digest>, ghost disturbed: set<Id>)
      returns (k: nat, finished: bool, ghost noise: set<Id>, ghost written: seq<Status>)
      requires Runnable(p) && desired.Keys == ById(p.services).Keys && changed <= desired.Keys
      requires forall id :: id in desired && id !in changed ==> Recorded(before, desired, id)
      requires Supplied(p, desired, changed, hosts.staged)
      requires status == Some(StatusAfter(p, before, desired, 0, false))
      requires RestartsTo(p, containers, hosts.containers, desired, changed, disturbed, {}, {})
      modifies this`status, this`writes, hosts`containers
      ensures k <= |p.steps| && (finished ==> k == |p.steps|)
      ensures status == Some(StatusAfter(p, before, desired, k, finished))
      ensures RestartsTo(p, containers, hosts.containers, desired, changed, noise,
                         AppliedBy(p, k), AppliedBy(p, if k < |p.steps| then k + 1 else k))
      ensures disturbed <= noise
      ensures writes == old(writes) + written && Progressed(p, before, desired, written)
      ensures calm ==> finished && noise == disturbed
    {
      k, finished, noise, written := 0, false, disturbed, [];
      ghost var start := writes;
      var memory := status.value;
      var ok := true;
      NoneApplied(p);
      while ok && k < |p.steps|
        invariant (if ok then k else k + 1) <= |p.steps| && disturbed <= noise
        invariant memory == StatusAfter(p, before, desired, k, false) && status == Some(memory)
        invariant RestartsTo(p, containers, hosts.containers, desired, changed, noise,
                             AppliedBy(p, k), AppliedBy(p, if ok then k else k + 1))
        invariant writes == start + written && Progressed(p, before, desired, written)
        invariant calm ==> ok && noise == disturbed
        decreases |p.steps| - k, ok
      {
        ok, memory, noise, written :=
          TakeStep(p, desired, changed, memory, k, calm, before, containers, noise, start, written);
        k := if ok then k + 1 else k;
      }
      if ok {
        assert k == |p.steps|;
        finished, written := RecordCompletion(p, desired, memory, calm, before, start, written);
      }
    }

    /** The status write after the last step. */
    method RecordCompletion(p: Plan, desired: map<Id, Digest>, memory: Status, calm: bool,
                            ghost before: Option<Status>, ghost start: seq<Status>, ghost written: seq<Status>)
      returns (ok: bool, ghost more: seq<Status>)
      requires memory == StatusAfter(p, before, desired, |p.steps|, false) && status == Some(memory)
      requires writes == start + written && Progressed(p, before, desired, written)
      modifies this`status, this`writes
      ensures status == Some(StatusAfter(p, before, desired, |p.steps|, ok))
      ensures writes == start + more && Progressed(p, before, desired, more)
      ensures calm ==> ok
    {
      ProgressedMore(p, before, desired, written, |p.steps|, true);
      CompletedStatus(p, before, desired);
      more := written;
      ok := WriteStatus(memory.(state := Complete), calm);
      if ok { more := written + [memory.(state := Complete)]; }
    }

    /** Render the bundle unless a resume finds one already installed. */
    method PrepareOrResume(resume: bool, next: Bundle, calm: bool) returns (ok: bool)
      requires store.Valid()
      modifies store
      ensures store.Valid()
      ensures ok ==> Installed().Some?
      ensures resume && old(Installed()).Some? ==> Installed() == old(Installed())
      ensures Installed() == old(Installed()) || Installed() == Some(next)
      ensures ok && !(resume && old(Installed()).Some?) ==> Installed() == Some(next)
      ensures calm && Preparable(resume, next, store.sha, old(store.State())) ==> ok
    {
      if !resume || store.bundle.None? {
        ok := store.Prepare(next, calm);
      } else {
        ok := Attempt(calm);    // the source evidence of the installed bundle may be unreadable
      }
    }

    /**
     * The `apply` command. `next` is the bundle the plan renders to; `resume` reuses the installed one.
     * Any operation may raise; the effect relation says what can be left behind at every such point.
     * In a calm call nothing raises and no container vanishes: then it walks the whole plan.
     */
    method Apply(p: Plan, resume: bool, next: Bundle, calm: bool)
      returns (o: Outcome, changed: set<Id>, ghost noise: set<Id>, ghost written: seq<Status>)
      requires Runnable(p) && store.Valid()
      modifies this`status, this`writes, store, hosts
      ensures store.Valid()
      ensures ApplyEffect(p, old(W()), W(), o, changed, noise)
      ensures Installed() == old(Installed()) || Installed() == Some(next)
      ensures resume && old(Installed()).Some? ==> Installed() == old(Installed())
      ensures writes == old(writes) + written
      ensures o.Refused? ==> written == []
      ensures o.Walked? ==> Progressed(p, old(status), Desired(p, Installed().value), written)
      ensures (exists id :: Drops(p, old(status), id)) ==> o.Refused?
      ensures calm && Preparable(resume, next, store.sha, old(store.State())) &&
              (forall id :: !Drops(p, old(status), id))
              && Rendered(p, if resume && old(Installed()).Some? then old(Installed()).value else next)
              ==> o == Walked(|p.steps|, true) && noise == {}
    {
      o, changed, noise, written := Refused, {}, {}, [];
      var ok := PrepareOrResume(resume, next, calm);
      if !ok { return; }
      ok := Attempt(calm);    // secret distribution
      if !ok { return; }
      o, changed, noise, written := SelectAndExecute(p, store.bundle.value.content, calm);
    }

    /** With the bundle in place: check it against the plan and the status, then select and execute. */
    method SelectAndExecute(p: Plan, b: Bundle, calm: bool)
      returns (o: Outcome, changed: set<Id>, ghost noise: set<Id>, ghost written: seq<Status>)
      requires Runnable(p)
      modifies this`status, this`writes, hosts
      ensures ApplyEffect(p, old(W()), World(Some(b), status, hosts.staged, hosts.containers), o, changed, noise)
      ensures writes == old(writes) + written
      ensures o.Refused? ==> written == []
      ensures o.Walked? ==> Rendered(p, b) && Progressed(p, old(status), Desired(p, b), written)
      ensures (exists id :: Drops(p, old(status), id)) ==> o.Refused?
      ensures calm && (forall id :: !Drops(p, old(status), id)) && Rendered(p, b) ==>
              o == Walked(|p.steps|, true) && noise == {}
    {
      o, changed, noise, written := Refused, {}, {}, [];
      ghost var w := W();
      NoneDroppedIff(p, status);
      if !NoneDropped(p, status) || !Rendered(p, b) { return; }
      var ok;
      ok, changed, noise := SelectChanged(p, Desired(p, b), calm);
      if !ok { return; }
      o, noise, written := Execute(p, b, changed, calm, noise, w);
    }

    /** From the first status write on: clear the record, stage, walk the plan. */
    method Execute(p: Plan, b: Bundle, changed: set<Id>, calm: bool, ghost disturbed: set<Id>, ghost w: World)
      returns (o: Outcome, ghost noise: set<Id>, ghost written: seq<Status>)
      requires Runnable(p) && Rendered(p, b) && NoneDropped(p, w.status)
      requires status == w.status && hosts.staged == w.staged && OnlyLost(w.containers, hosts.containers)
      requires Selects(p, w, Desired(p, b), changed, disturbed)
      requires RestartsTo(p, w.containers, hosts.containers, Desired(p, b), changed, disturbed, {}, {})
      modifies this`status, this`writes, hosts
      ensures ApplyEffect(p, w, World(Some(b), status, hosts.staged, hosts.containers), o, changed, noise)
      ensures writes == old(writes) + written && Progressed(p, old(status), Desired(p, b), written)
      ensures o.Refused? ==> written == []
      ensures calm ==> o == Walked(|p.steps|, true) && noise == disturbed
    {
      o, noise, written := Refused, disturbed, [];
      var desired, before := Desired(p, b), status;
      var ok := Attempt(calm);    // chain artifacts, existing persistent data
      if !ok { return; }
      ok := WriteStatus(Status(Running, Known(before).services, map[], Known(before).readiness), calm);
      if !ok { return; }
      StatusStart(p, before, desired);
      ProgressedMore(p, before, desired, [], 0, false);
      ghost var first := [StatusAfter(p, before, desired, 0, false)];
      ghost var more;
      o, noise, more := StageAndWalk(p, b, changed, calm, disturbed, w);
      ProgressedBoth(p, before, desired, first, more);
      Associative(old(writes), first, more);
      written := first + more;
    }

    /** With the record cleared: stage the changed machines, then walk the plan. */
    method StageAndWalk(p: Plan, b: Bundle, changed: set<Id>, calm: bool, ghost disturbed: set<Id>, ghost w: World)
      returns (o: Outcome, ghost noise: set<Id>, ghost written: seq<Status>)
      requires Runnable(p) && Rendered(p, b) && NoneDropped(p, w.status)
      requires status == Some(StatusAfter(p, w.status, Desired(p, b), 0, false)) && hosts.staged == w.staged
      requires Selects(p, w, Desired(p, b), changed, disturbed)
      requires RestartsTo(p, w.containers, hosts.containers, Desired(p, b), changed, disturbed, {}, {})
      modifies this`status, this`writes, hosts
      ensures o.Walked? && ApplyEffect(p, w, World(Some(b), status, hosts.staged, hosts.containers), o, changed, noise)
      ensures writes == old(writes) + written && Progressed(p, w.status, Desired(p, b), written)
      ensures calm ==> o == Walked(|p.steps|, true) && noise == disturbed
    {
      ghost var desired := Desired(p, b);
      var ok := StageChanged(p, b, changed, calm);
      ghost var staged := World(Some(b), status, hosts.staged, hosts.containers);
      if !ok {
        NothingStartedYet(p, w, staged, desired, changed, disturbed);
        WalkedEffect(p, b, w, staged, 0, false, changed, disturbed);
        return Walked(0, false), disturbed, [];
      }
      StagedForAll(p, b, changed, hosts.staged);
      assert Stages(p, w, staged, desired, changed, |p.steps|);
      var k, finished;
      k, finished, noise, written := Walk(p, Desired(p, b), changed, calm, w.status, w.containers, disturbed);
      ghost var end := World(Some(b), status, hosts.staged, hosts.containers);
      SelectsMore(p, w, desired, changed, disturbed, noise);
      StagesStay(p, w, staged, end, desired, changed, k);
      WalkedEffect(p, b, w, end, k, finished, changed, noise);
      o := Walked(k, finished);
    }

    /**
     * The `push` command: stage every machine, then replace the status. A push that raised has
     * staged the machines in `done` and may have been cut short on the one in `hurt`.
     */
    method Push(machines: seq<Id>, calm: bool) returns (ok: bool, ghost done: set<Id>, ghost hurt: set<Id>)
      requires store.Valid()
      modifies this`status, this`writes, hosts`staged
      ensures ok ==> PushEffect(machines, old(W()), W())
      ensures done + hurt <= ToSet(machines) && done !! hurt
      ensures !ok && Installed().Some? ==> InterruptedPush(done, hurt, old(W()), W())
      ensures Installed().None? ==> !ok && W() == old(W())
      ensures calm ==> (ok <==> old(Installed()).Some?)
    {
      done, hurt := {}, {};
      if store.bundle.None? { return false, done, hurt; }
      ok := Attempt(calm);    // unreadable evidence or a revision that does not match
      if !ok { return false, done, hurt; }
      var b := store.bundle.value.content;
      for n := 0 to |machines|
        invariant status == old(status) && hosts.containers == old(hosts.containers)
        invariant StagedUpTo(machines[..n], b, old(hosts.staged), hosts.staged)
      {
        ghost var was := hosts.staged;
        ok := hosts.Stage(machines[n], b, calm);
        if !ok {
          done, hurt := ToSet(machines[..n]) - {machines[n]}, {machines[n]};
          StagedInPart(machines[..n], machines[n], b, old(hosts.staged), was, hosts.staged);
          return false, done, hurt;
        }
        StagedOneMore(machines[..n], machines[n], b, old(hosts.staged), was, hosts.staged);
        assert machines[..n] + [machines[n]] == machines[..n + 1];
      }
      assert machines[..|machines|] == machines;
      done := ToSet(machines);
      ok := WriteStatus(Status(Pushed, map[], map[], {}), calm);
    }

    /** The lifecycle commands: one Compose action, then the new state of that service. */
    method ManageService(slot: Slot, kind: ServiceType, a: Action, calm: bool) returns (ok: bool)
      modifies this`status, this`writes, hosts`containers
      ensures LifecycleEffect(slot, kind, a, old(W()), W(), ok)
      ensures ok ==> status.Some? && slot.service in status.value.services
      ensures ok && a == Stop ==> status.value.services[slot.service] == ServiceState.Stopped
      ensures ok && a == Remove ==> status.value.services[slot.service] == ServiceState.Removed
      ensures ok && a in {Build, Start, Restart, Recreate} ==>
              status.value.services[slot.service] == ServiceState.Applied
      ensures calm ==> (ok <==> kind !in {MinterMigrate, DashboardMigrate, ContractsDeploy} && slot in old(hosts.staged)
                                && (a in {Stop, Start, Restart, Remove} ==> slot in old(hosts.containers)))
    {
      if IsOneShot(kind) || slot !in hosts.staged { return false; }
      if a in {Stop, Start, Restart, Remove} && slot !in hosts.containers { return false; }
      match a {
        case Recreate => ok := hosts.Up(slot, calm);
        case Remove => ok := hosts.Down(slot, calm);
        case _ => ok := Attempt(calm);
      }
      if !ok { return false; }
      var s := Known(status);
      ok := WriteStatus(s.(services := s.services[slot.service := StateAfter(a)]), calm);
    }
  }

  /** Right after staging, no container was started yet. */
  lemma NothingStartedYet(p: Plan, w: World, w': World, desired: map<Id, Digest>, changed: set<Id>, noise: set<Id>)
    requires Runnable(p) && desired.Keys == ById(p.services).Keys
    requires RestartsTo(p, w.containers, w'.containers, desired, changed, noise, {}, {})
    ensures AppliedBy(p, 0) == {} && Restarts(p, w, w', desired, changed, noise, 0)
  {
    assert AppliedBy(p, 0) == {};
    StepKeeps(p, w.containers, w'.containers, desired, changed, noise, {}, {}, {},
        AppliedBy(p, if 0 < |p.steps| then 1 else 0));
    var touched := AppliedBy(p, if 0 < |p.steps| then 1 else 0);
    assert {} + touched == touched;
  }

  lemma CompletedStatus(p: Plan, before: Option<Status>, desired: map<Id, Digest>)
    ensures StatusAfter(p, before, desired, |p.steps|, false).(state := Complete) ==
            StatusAfter(p, before, desired, |p.steps|, true)
  {
  }

  /** A step whose status write failed has run but is not on record. */
  lemma UnrecordedStep(p: Plan, before: map<Slot, Digest>, now: map<Slot, Digest>, desired: map<Id, Digest>,
                       changed: set<Id>, noise: set<Id>, k: nat)
    requires Runnable(p) && desired.Keys == ById(p.services).Keys && k < |p.steps|
    requires RestartsTo(p, before, now, desired, changed, noise, AppliedBy(p, k + 1), AppliedBy(p, k + 1))
    ensures RestartsTo(p, before, now, desired, changed, noise, AppliedBy(p, k), AppliedBy(p, k + 1))
  {
    AppliedStep(p, k);
  }

  lemma StagesStay(p: Plan, w: World, staged: World, w': World, desired: map<Id, Digest>, changed: set<Id>, k: nat)
    requires Runnable(p) && desired.Keys == ById(p.services).Keys && k <= |p.steps|
    requires Stages(p, w, staged, desired, changed, |p.steps|) && w'.staged == staged.staged
    ensures Stages(p, w, w', desired, changed, k)
  {
  }

  lemma SelectsMore(p: Plan, w: World, desired: map<Id, Digest>, changed: set<Id>, noise: set<Id>, more: set<Id>)
    requires Runnable(p) && Selects(p, w, desired, changed, noise) && noise <= more
    ensures Selects(p, w, desired, changed, more)
  {
  }

  lemma StagedForAll(p: Plan, b: Bundle, changed: set<Id>, staged: map<Slot, Digest>)
    requires Runnable(p) && Rendered(p, b) && Carries(p, b, changed, ToSet(p.machines), staged)
    requires changed <= ById(p.services).Keys
    ensures Supplied(p, Desired(p, b), changed, staged)
    ensures forall s :: s in p.services && ChangedMachine(p, changed, s.machine) ==>
              SlotOf(p, s) in staged && staged[SlotOf(p, s)] == Desired(p, b)[s.id]
  {
    forall id | id in changed
      ensures ChangedMachine(p, changed, ServiceOf(p, id).machine) && ServiceOf(p, id) in p.services
    {
      assert ServiceOf(p, id) in p.services;
    }
    forall s | s in p.services ensures ServiceOf(p, s.id) == s && s.machine in ToSet(p.machines) {}
  }

  /** Staged inputs of every changed service are the desired ones. */
  ghost predicate Supplied(p: Plan, desired: map<Id, Digest>, changed: set<Id>, staged: map<Slot, Digest>)
    requires Runnable(p) && desired.Keys == ById(p.services).Keys
  {
    forall id :: id in changed && id in desired ==>
      SlotOf(p, ServiceOf(p, id)) in staged && staged[SlotOf(p, ServiceOf(p, id))] == desired[id]
  }

  /** The status in memory after a step succeeded. */
  function Advance(memory: Status, desired: map<Id, Digest>, changed: set<Id>, step: StepId): Status
    requires step.ApplyId? ==> step.service in desired
  {
    match step
    case ApplyId(id) =>
      memory.(fingerprints := memory.fingerprints[id := desired[id]],
              services := if id in changed then memory.services[id := Applied] else memory.services)
    case ReadinessId(phase) => memory.(readiness := memory.readiness + {phase})
    case _ => memory
  }

  lemma AdvanceIsNext(p: Plan, before: Option<Status>, desired: map<Id, Digest>, changed: set<Id>, k: nat)
    requires Runnable(p) && desired.Keys == ById(p.services).Keys && k < |p.steps|
    requires forall id :: id in desired && id !in changed ==> Recorded(before, desired, id)
    ensures p.steps[k].id.ApplyId? ==> p.steps[k].id.service in desired
    ensures Advance(StatusAfter(p, before, desired, k, false), desired, changed, p.steps[k].id)
              == StatusAfter(p, before, desired, k + 1, false)
  {
    match p.steps[k].id
    case ApplyId(id) =>
      ServiceIsPlanned(p, k, id);
      ServiceRecorded(p, before, desired, k, id);
      ReusedIsApplied(p, before, desired, changed, k, id);
    case ReadinessId(phase) => GateRecorded(p, before, desired, k, phase);
    case _ => CheckRecorded(p, before, desired, k);
  }

  lemma ProgressedBoth(p: Plan, before: Option<Status>, desired: map<Id, Digest>, a: seq<Status>, b: seq<Status>)
    requires Progressed(p, before, desired, a) && Progressed(p, before, desired, b)
    ensures Progressed(p, before, desired, a + b)
  {
  }

  lemma ProgressedMore(p: Plan, before: Option<Status>, desired: map<Id, Digest>, written: seq<Status>, k: nat,
                       finished: bool)
    requires Progressed(p, before, desired, written) && k <= |p.steps|
    ensures Progressed(p, before, desired, written + [StatusAfter(p, before, desired, k, finished)])
  {
    assert Snapshot(p, before, desired, StatusAfter(p, before, desired, k, finished));
  }

  lemma ServiceIsPlanned(p: Plan, k: nat, id: Id)
    requires Runnable(p) && k < |p.steps| && p.steps[k].id == ApplyId(id)
    ensures id in ById(p.services) && id !in AppliedBy(p, k)
  {
    assert Ids(p.steps)[k] == ApplyId(id);
    assert Ids(p.steps[..k]) == Ids(p.steps)[..k];
  }

  /** A reused service was applied before, so its state needs no update. */
  lemma ReusedIsApplied(p: Plan, before: Option<Status>, desired: map<Id, Digest>, changed: set<Id>, k: nat, id: Id)
    requires k <= |p.steps| && id in desired && (id !in changed ==> Recorded(before, desired, id))
    ensures id !in changed ==> var s := StatusAfter(p, before, desired, k, false).services; s == s[id := Applied]
  {
    var s := StatusAfter(p, before, desired, k, false).services;
    if id !in changed { assert id in s && s[id] == Applied; }
  }

  lemma PerformKeeps(p: Plan, before: map<Slot, Digest>, now: map<Slot, Digest>, after: map<Slot, Digest>,
                     desired: map<Id, Digest>, changed: set<Id>, noise: set<Id>, k: nat, ok: bool)
    requires Runnable(p) && desired.Keys == ById(p.services).Keys && k < |p.steps|
    requires RestartsTo(p, before, now, desired, changed, noise, AppliedBy(p, k), AppliedBy(p, k))
    requires var step := p.steps[k].id;
      if step.ApplyId? && step.service in changed && step.service in desired &&
          !IsJob(ServiceOf(p, step.service).kind) then
        var slot := SlotOf(p, ServiceOf(p, step.service));
        && (ok ==> after == now[slot := desired[step.service]])
        && (!ok ==> after == now || after == now - {slot} || after == now[slot := desired[step.service]])
      else after == now
    ensures RestartsTo(p, before, after, desired, changed, noise, AppliedBy(p, if ok then k + 1 else k),
            AppliedBy(p, k + 1))
  {
    AppliedStep(p, k);
    var step := p.steps[k].id;
    if step.ApplyId? {
      ServiceIsPlanned(p, k, step.service);
      if step.service in changed && !IsJob(ServiceOf(p, step.service).kind) {
        UpKeeps(p, before, now, after, desired, changed, noise, AppliedBy(p, k), AppliedBy(p, k), step.service, ok);
      } else {
        StepKeeps(p, before, now, desired, changed, noise, AppliedBy(p, k), AppliedBy(p, k),
                  if ok then {step.service} else {}, {step.service});
        assert AppliedBy(p, k) + {} == AppliedBy(p, k);
      }
    } else {
      assert AppliedBy(p, k + 1) == AppliedBy(p, k);
    }
  }

  /** The changed machines among `machines` hold the bundle. */
  ghost predicate Carries(p: Plan, b: Bundle, changed: set<Id>, machines: set<Id>, staged: map<Slot, Digest>)
    requires Runnable(p) && Rendered(p, b)
  {
    forall s :: s in p.services && s.machine in machines && ChangedMachine(p, changed, s.machine) ==>
      SlotOf(p, s) in staged && staged[SlotOf(p, s)] == b.inputs[SlotOf(p, s)]
  }

  lemma CarriesMore(p: Plan, b: Bundle, changed: set<Id>, machines: set<Id>, machine: Id,
                    before: map<Slot, Digest>, after: map<Slot, Digest>)
    requires Runnable(p) && Rendered(p, b) && Carries(p, b, changed, machines, before)
    requires StagedOn(machine, b, before, after)
    ensures Carries(p, b, changed, machines + {machine}, after)
  {
    forall s | s in p.services && s.machine in machines + {machine} && ChangedMachine(p, changed, s.machine)
      ensures SlotOf(p, s) in after && after[SlotOf(p, s)] == b.inputs[SlotOf(p, s)]
    {
      if s.machine != machine { assert SameAt(before, after, SlotOf(p, s)); }
    }
  }

  lemma StagedOneMore(machines: seq<Id>, machine: Id, b: Bundle, before: map<Slot, Digest>, was: map<Slot, Digest>,
                      after: map<Slot, Digest>)
    requires StagedUpTo(machines, b, before, was) && StagedOn(machine, b, was, after)
    ensures StagedUpTo(machines + [machine], b, before, after)
  {
    forall x: Slot
      ensures x.machine in machines + [machine] ==> StagedAt(b, before, after, x)
      ensures x.machine !in machines + [machine] ==> SameAt(before, after, x)
    {
      if x.machine == machine {
        assert StagedAt(b, was, after, x);
      } else {
        assert SameAt(was, after, x);
      }
      assert if x.machine in machines then StagedAt(b, before, was, x) else SameAt(before, was, x);
    }
  }

  lemma StagedInPart(machines: seq<Id>, machine: Id, b: Bundle, before: map<Slot, Digest>, was: map<Slot, Digest>,
                     after: map<Slot, Digest>)
    requires StagedUpTo(machines, b, before, was)
    requires forall x: Slot :: x.machine != machine ==> SameAt(was, after, x)
    ensures forall x: Slot :: x.machine in ToSet(machines) - {machine} ==> StagedAt(b, before, after, x)
    ensures forall x: Slot :: x.machine !in ToSet(machines) && x.machine != machine ==> SameAt(before, after, x)
  {
    forall x: Slot | x.machine != machine
      ensures x.machine in machines ==> StagedAt(b, before, after, x)
      ensures x.machine !in machines ==> SameAt(before, after, x)
    {
      assert SameAt(was, after, x);
      assert if x.machine in machines then StagedAt(b, before, was, x) else SameAt(before, was, x);
    }
  }

  /** Undisturbed, exactly the services applied with the desired inputs that have their container are left alone. */
  lemma CalmSelection(p: Plan, w: World, desired: map<Id, Digest>, changed: set<Id>)
    requires Runnable(p) && desired.Keys == ById(p.services).Keys && Selects(p, w, desired, changed, {})
    ensures forall s :: s in p.services ==>
      (s.id !in changed <==>
         AppliedWith(w.status, s.id, desired[s.id]) && Slot(s.machine, p.groups[s.id], s.id) in w.containers)
  {
    forall s | s in p.services
      ensures s.id !in changed <==>
        AppliedWith(w.status, s.id, desired[s.id]) && Slot(s.machine, p.groups[s.id], s.id) in w.containers
    {
      LeftAlone(p, w, desired, changed, s);
    }
  }

  lemma LeftAlone(p: Plan, w: World, desired: map<Id, Digest>, changed: set<Id>, s: Service)
    requires Runnable(p) && desired.Keys == ById(p.services).Keys && s in p.services
    requires Selects(p, w, desired, changed, {})
    ensures s.id !in changed <==>
      AppliedWith(w.status, s.id, desired[s.id]) && Slot(s.machine, p.groups[s.id], s.id) in w.containers
  {
    RecordedIff(w.status, desired, s.id);
    assert ServiceOf(p, s.id) == s;
  }

  /** After probing the first `n` services: the selection so far, and containers of probed reused services seen. */
  ghost predicate Probed(p: Plan, status: Option<Status>, desired: map<Id, Digest>, before: map<Slot, Digest>,
                         now: map<Slot, Digest>, changed: set<Id>, noise: set<Id>, n: nat)
    requires Runnable(p) && n <= |p.services|
  {
    && changed <= ById(p.services).Keys
    && OnlyLost(before, now)
    && (forall id :: id in ById(p.services) && id !in changed ==> Recorded(status, desired, id))
    && (forall x :: x in before && x !in now ==> x.service in noise)
    && (forall id :: id in changed ==>
          !Recorded(status, desired, id) || SlotOf(p, ServiceOf(p, id)) !in before || id in noise)
    && (forall k :: 0 <= k < n && p.services[k].id !in changed ==> SlotOf(p, p.services[k]) in before)
  }

  lemma ProbeDisturbed(p: Plan, status: Option<Status>, desired: map<Id, Digest>, before: map<Slot, Digest>,
                       now: map<Slot, Digest>, changed: set<Id>, noise: set<Id>, n: nat, lost: set<Slot>)
    requires Runnable(p) && n <= |p.services| && Probed(p, status, desired, before, now, changed, noise, n)
    ensures Probed(p, status, desired, before, now - lost, changed, noise + Services(lost), n)
  {
  }

  lemma ProbeStep(p: Plan, status: Option<Status>, desired: map<Id, Digest>, before: map<Slot, Digest>,
                  now: map<Slot, Digest>, changed: set<Id>, noise: set<Id>, n: nat, found: bool)
    requires Runnable(p) && n < |p.services| && Probed(p, status, desired, before, now, changed, noise, n)
    requires found && p.services[n].id !in changed ==> SlotOf(p, p.services[n]) in now
    requires !found ==> SlotOf(p, p.services[n]) !in now || p.services[n].id in noise
    ensures Probed(p, status, desired, before, now, if found then changed else changed + {p.services[n].id}, noise, n +
            1)
  {
    var s := p.services[n];
    assert s in p.services && ServiceOf(p, s.id) == s && SlotOf(p, s).service == s.id;
    var next := if found then changed else changed + {s.id};
    forall k | 0 <= k < n + 1 && p.services[k].id !in next ensures SlotOf(p, p.services[k]) in before {
      if k == n { assert SlotOf(p, s) in now; }
    }
  }

  lemma ProbedAll(p: Plan, status: Option<Status>, desired: map<Id, Digest>, before: map<Slot, Digest>,
                  now: map<Slot, Digest>, changed: set<Id>, noise: set<Id>)
    requires Runnable(p) && desired.Keys == ById(p.services).Keys
    requires Probed(p, status, desired, before, now, changed, noise, |p.services|)
    ensures forall w: World :: w.status == status && w.containers == before ==> Selects(p, w, desired, changed, noise)
    ensures RestartsTo(p, before, now, desired, changed, noise, {}, {})
  {
    forall id | id in ById(p.services) && id !in changed ensures SlotOf(p, ServiceOf(p, id)) in before {
      var s := ServiceOf(p, id);
      assert s in p.services;
      var k :| 0 <= k < |p.services| && p.services[k] == s;
    }
    forall id | id in ById(p.services) && id !in changed && id !in noise ensures SlotOf(p, ServiceOf(p, id)) in now {
      assert SlotOf(p, ServiceOf(p, id)).service == id;
    }
  }
}
