/** The prepared bundle: three directory slots, the revision records and the current-revision file. */
module Bundles {
  import opened Ordering
  import opened Model

  /** A SHA-256 value. */
  datatype Digest = Digest(hex: string)

  /** Where a service's Compose project lives: one directory per machine and group. */
  datatype Slot = Slot(machine: Id, group: Id, service: Id)

  /**
   * What a prepared bundle holds, by digest: the rendered inputs of every service, the manifest of
   * every machine, the topology document and the source evidence.
   */
  datatype Bundle = Bundle(inputs: map<Slot, Digest>, manifests: map<Id, Digest>, topology: Digest, evidence: Digest)

  /** A directory is complete, or was left half written or half removed by an exception. */
  datatype Tree = Whole(content: Bundle) | Broken

  /** The document a revision id is the hash of. */
  datatype Index = Index(topology: Digest, evidence: Digest, manifests: map<Id, Digest>)

  datatype Record = Record(index: Index, id: Digest)

  function IndexOf(b: Bundle): Index { Index(b.topology, b.evidence, b.manifests) }

  ghost predicate Injective(sha: Index -> Digest) {
    forall a, b :: sha(a) == sha(b) ==> a == b
  }

  /** The whole directory state, as a value. */
  datatype Disk = Disk(
    bundle: Option<Tree>, pending: Option<Tree>, previous: Option<Tree>,
    revisions: map<Digest, Record>, unfinished: set<Digest>, current: Option<Digest>)

  ghost predicate Consistent(sha: Index -> Digest, d: Disk) {
    && (d.bundle.Some? ==> d.bundle.value.Whole?)
    && forall id :: id in d.revisions ==> sha(d.revisions[id].index) == id && d.revisions[id].id == id
  }

  /** What one `_prepare_bundle` may do to the directories. */
  ghost predicate PrepareEffect(sha: Index -> Digest, d: Disk, d': Disk, next: Bundle, ok: bool) {
    && (d'.bundle == d.bundle || d'.bundle == Some(Whole(next)))
    && (forall id :: id in d.revisions ==> id in d'.revisions && d'.revisions[id] == d.revisions[id])
    && Added(sha, d, d', next)
    && (d'.current == d.current || d'.current == Some(sha(IndexOf(next))))
    && (ok ==>
          && d'.bundle == Some(Whole(next))
          && d'.current == Some(sha(IndexOf(next)))
          && d'.current.value in d'.revisions
          && d'.revisions[d'.current.value].index.topology == next.topology
          && d'.revisions[d'.current.value].index.evidence == next.evidence
          && d'.revisions[d'.current.value].index.manifests == next.manifests)
    && (Blocked(d, sha(IndexOf(next))) ==> !ok)
  }

  /** At most the record of `next` is new, and at most its leftover directory. */
  ghost predicate Added(sha: Index -> Digest, d: Disk, d': Disk, next: Bundle) {
    && (forall id :: id in d'.revisions && id !in d.revisions ==>
          id == sha(IndexOf(next)) && id !in d.unfinished && d'.revisions[id] == Record(IndexOf(next), id))
    && d.unfinished <= d'.unfinished <= d.unfinished + {sha(IndexOf(next))}
  }

  /** One outside operation: it may raise unless the call is a calm one. */
  method Attempt(calm: bool) returns (ok: bool)
    ensures calm ==> ok
  {
    ok := *;
    ok := ok || calm;
  }

  /** A leftover directory of the revision is in the way. */
  ghost predicate Blocked(d: Disk, id: Digest) {
    id in d.unfinished && id !in d.revisions
  }

  class BundleStore {
    const sha: Index -> Digest
    var bundle: Option<Tree>
    var pending: Option<Tree>
    var previous: Option<Tree>
    var revisions: map<Digest, Record>
    var unfinished: set<Digest>    // revision directories still under their `.prepare` name
    var current: Option<Digest>

    ghost function State(): Disk
      reads this
    {
      Disk(bundle, pending, previous, revisions, unfinished, current)
    }

    ghost predicate Valid()
      reads this
    {
      Injective(sha) && Consistent(sha, State())
    }

    constructor (sha: Index -> Digest)
      requires Injective(sha)
      ensures Valid() && this.sha == sha
      ensures State() == Disk(None, None, None, map[], {}, None)
    {
      this.sha := sha;
      bundle, pending, previous, current := None, None, None, None;
      revisions, unfinished := map[], {};
    }

    /** `shutil.rmtree`: an exception can leave the directory half removed. */
    method RemovePending(calm: bool) returns (ok: bool)
      modifies this`pending
      ensures ok ==> pending == None
      ensures calm ==> ok
    {
      ok := Attempt(calm);
      if ok {
        pending := None;
      } else {
        var damaged: bool := *;
        if damaged { pending := Some(Broken); }
      }
    }

    method RemovePrevious(calm: bool) returns (ok: bool)
      modifies this`previous
      ensures ok ==> previous == None
      ensures calm ==> ok
    {
      ok := Attempt(calm);
      if ok {
        previous := None;
      } else {
        var damaged: bool := *;
        if damaged { previous := Some(Broken); }
      }
    }

    /** Compile, render, attach and materialise into `bundle.prepare`. */
    method Render(next: Bundle, calm: bool) returns (ok: bool)
      modifies this`pending
      ensures ok ==> pending == Some(Whole(next))
      ensures calm ==> ok
    {
      ok := Attempt(calm);
      if ok {
        pending := Some(Whole(next));
      } else {
        var started: bool := *;
        if started { pending := Some(Broken); }
      }
    }

    /** `bundle.replace(previous)`: a directory is not renamed onto another one. */
    method ParkBundle(calm: bool) returns (ok: bool)
      modifies this`bundle, this`previous
      ensures ok ==> old(previous) == None && bundle == None && previous == old(bundle)
      ensures !ok ==> bundle == old(bundle) && previous == old(previous)
      ensures calm ==> (ok <==> old(previous) == None)
    {
      ok := Attempt(calm);
      if previous.Some? { ok := false; }
      if ok { bundle, previous := None, bundle; }
    }

    /** `pending.replace(bundle)` likewise. */
    method InstallPending(calm: bool) returns (ok: bool)
      modifies this`bundle, this`pending
      ensures ok ==> old(bundle) == None && bundle == old(pending) && pending == None
      ensures !ok ==> bundle == old(bundle) && pending == old(pending)
      ensures calm ==> (ok <==> old(bundle) == None)
    {
      ok := Attempt(calm);
      if bundle.Some? { ok := false; }
      if ok { bundle, pending := pending, None; }
    }

    /** `_write_revision`: record the topology once, then point the current-revision file at it. */
    method WriteRevision(next: Bundle, calm: bool) returns (ok: bool)
      requires Valid()
      modifies this`revisions, this`unfinished, this`current
      ensures Valid()
      ensures forall id :: id in old(revisions) ==> id in revisions && revisions[id] == old(revisions)[id]
      ensures Added(sha, old(State()), State(), next)
      ensures ok ==> sha(IndexOf(next)) in revisions && current == Some(sha(IndexOf(next)))
      ensures !ok ==> current == old(current)
      ensures Blocked(old(State()), sha(IndexOf(next))) ==> !ok
      ensures calm && !Blocked(old(State()), sha(IndexOf(next))) ==> ok
    {
      var id := sha(IndexOf(next));
      if id !in revisions {
        // mkdir(exist_ok=False) refuses a directory left over from an earlier failure
        if id in unfinished { return false; }
        ok := Attempt(calm);
        if !ok { return false; }
        unfinished := unfinished + {id};
        ok := Attempt(calm);
        if !ok { return false; }
        unfinished := unfinished - {id};
        revisions := revisions[id := Record(IndexOf(next), id)];
      }
      ok := Attempt(calm);
      if !ok { return false; }
      current := Some(id);
      return true;
    }

    /** The body of the `try`: build beside the old bundle, then swap by two renames. */
    method Replace(next: Bundle, calm: bool) returns (ok: bool)
      requires Valid() && previous == None
      modifies this
      ensures Injective(sha) && forall id :: id in revisions ==>
              sha(revisions[id].index) == id && revisions[id].id == id
      ensures bundle == Some(Whole(next)) || (bundle == old(bundle) && previous == None) ||
              (bundle == None && previous == old(bundle))
      ensures forall id :: id in old(revisions) ==> id in revisions && revisions[id] == old(revisions)[id]
      ensures Added(sha, old(State()), State(), next)
      ensures ok ==>
              bundle == Some(Whole(next)) && sha(IndexOf(next)) in revisions && current == Some(sha(IndexOf(next)))
      ensures !ok ==> current == old(current)
      ensures Blocked(old(State()), sha(IndexOf(next))) ==> !ok
      ensures calm && !Blocked(old(State()), sha(IndexOf(next))) ==> ok
    {
      ok := Render(next, calm);
      if !ok { return false; }
      if bundle.Some? {
        ok := ParkBundle(calm);
        if !ok { return false; }
      }
      ok := InstallPending(calm);
      if !ok { return false; }
      if previous.Some? {
        ok := RemovePrevious(calm);
        if !ok { return false; }
      }
      ok := WriteRevision(next, calm);
    }

    /** `_prepare_bundle`: an exception at any operation, then its handler. */
    method Prepare(next: Bundle, calm: bool) returns (ok: bool)
      requires Valid()
      modifies this
      ensures Valid()
      ensures PrepareEffect(sha, old(State()), State(), next, ok)
      ensures calm ==> (ok <==> !Blocked(old(State()), sha(IndexOf(next))))
    {
      ok := Clean(calm);
      if !ok { return false; }
      ok := Replace(next, calm);
      if !ok { Restore(); }
    }

    /** Leftovers of an earlier prepare go first. */
    method Clean(calm: bool) returns (ok: bool)
      modifies this`pending, this`previous
      ensures ok ==> pending == None && previous == None
      ensures calm ==> ok
    {
      ok := true;
      if pending.Some? {
        ok := RemovePending(calm);
        if !ok { return false; }
      }
      if previous.Some? {
        ok := RemovePrevious(calm);
      }
    }

    /** The exception handler: a parked bundle comes back when there is no other. */
    method Restore()
      modifies this`bundle, this`pending, this`previous
      ensures pending == None
      ensures old(bundle) == None && old(previous).Some? ==> bundle == old(previous) && previous == None
      ensures old(bundle).Some? || old(previous) == None ==> bundle == old(bundle) && previous == old(previous)
    {
      if pending.Some? { pending := None; }
      if bundle == None && previous.Some? {
        bundle, previous := previous, None;
      }
    }
  }

  // ---------------------------------------------------------------- sequences of prepares

  ghost predicate PrepareStep(sha: Index -> Digest, d: Disk, d': Disk) {
    exists next, ok :: PrepareEffect(sha, d, d', next, ok)
  }

  ghost predicate PrepareRun(sha: Index -> Digest, disks: seq<Disk>) {
    forall i, j :: 0 <= i && j == i + 1 < |disks| ==> PrepareStep(sha, disks[i], disks[j])
  }

  /** However many prepares fail, a record once written is never altered and a bundle is never lost. */
  lemma {:induction false} RecordsArePermanent(sha: Index -> Digest, disks: seq<Disk>, i: nat, j: nat)
    requires PrepareRun(sha, disks) && i <= j < |disks|
    ensures forall id :: id in disks[i].revisions ==>
              id in disks[j].revisions && disks[j].revisions[id] == disks[i].revisions[id]
    ensures disks[i].bundle.Some? && disks[i].bundle.value.Whole? ==>
            disks[j].bundle.Some? && disks[j].bundle.value.Whole?
    decreases j - i
  {
    if i < j {
      RecordsArePermanent(sha, disks, i, j - 1);
      assert PrepareStep(sha, disks[j - 1], disks[j]);
    }
  }

  /**
   * A failure between creating and renaming a revision directory blocks that revision for good:
   * the leftover directory is refused by every later prepare of the same content.
   */
  lemma {:induction false} LeftoverBlocksRevision(sha: Index -> Digest, disks: seq<Disk>, i: nat, j: nat, next: Bundle)
    requires PrepareRun(sha, disks) && i <= j < |disks| && Blocked(disks[i], sha(IndexOf(next)))
    ensures Blocked(disks[j], sha(IndexOf(next)))
    ensures forall after, ok :: PrepareEffect(sha, disks[j], after, next, ok) ==> !ok
    decreases j - i
  {
    if i < j {
      LeftoverBlocksRevision(sha, disks, i, j - 1, next);
      assert PrepareStep(sha, disks[j - 1], disks[j]);
    }
  }
}
