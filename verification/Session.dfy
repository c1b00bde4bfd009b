/** A transactional editing session over documents that a partial resolver accepts or rejects. */
module Session {
  import opened Ordering
  import opened Model

  /** What a session holds of its document; every field but the file it was opened from. */
  datatype Draft<Doc, Res> = Draft(
    original: Doc, raw: Doc, resolution: Res, stage: string, lastError: Option<string>,
    undoStack: seq<Doc>, savedPath: Option<Id>)

  /** The resolution is that of the draft, and undo and reset lead only to documents that resolve. */
  ghost predicate Sound<Doc, Res>(resolve: Doc -> Result<Res>, d: Draft<Doc, Res>) {
    && resolve(d.raw) == Ok(d.resolution)
    && resolve(d.original).Ok?
    && forall i :: 0 <= i < |d.undoStack| ==> resolve(d.undoStack[i]).Ok?
  }

  // ---------------------------------------------------------------- what each call does to the draft

  /** The candidate a change produces, when it also resolves. */
  function Candidate<Doc, Res>(resolve: Doc -> Result<Res>, d: Draft<Doc, Res>,
                               change: Doc -> Result<Doc>): Result<(Doc, Res)> {
    match change(d.raw)
    case Fail(e) => Fail(e)
    case Ok(candidate) =>
      match resolve(candidate)
      case Fail(e) => Fail(e)
      case Ok(resolution) => Ok((candidate, resolution))
  }

  function Edited<Doc, Res>(resolve: Doc -> Result<Res>, d: Draft<Doc, Res>, change: Doc -> Result<Doc>,
                            stage: string): Draft<Doc, Res> {
    match Candidate(resolve, d, change)
    case Fail(e) => d.(lastError := Some(e))
    case Ok((candidate, resolution)) =>
      d.(raw := candidate, resolution := resolution, stage := stage, lastError := None, undoStack := d.undoStack +
          [d.raw])
  }

  function Moved<Doc, Res>(resolve: Doc -> Result<Res>, d: Draft<Doc, Res>, raw: Doc, stage: string,
                           stack: seq<Doc>): Draft<Doc, Res> {
    match resolve(raw)
    case Fail(e) => d.(raw := raw, undoStack := stack)
    case Ok(resolution) => d.(raw := raw, resolution := resolution, stage := stage, lastError := None,
        undoStack := stack)
  }

  function Undone<Doc, Res>(resolve: Doc -> Result<Res>, d: Draft<Doc, Res>): Draft<Doc, Res> {
    if d.undoStack == [] then d
    else Moved(resolve, d, d.undoStack[|d.undoStack| - 1], "undo", d.undoStack[..|d.undoStack| - 1])
  }

  function Restarted<Doc, Res>(resolve: Doc -> Result<Res>, d: Draft<Doc, Res>): Draft<Doc, Res> {
    Moved(resolve, d, d.original, "reset", [])
  }

  // ---------------------------------------------------------------- files

  /** A file holds a serialised document, the bytes the session was opened from, or an unfinished write. */
  datatype Content<Doc> = Serialised(doc: Doc) | Verbatim | Unfinished

  function ReadBack<Doc>(original: Doc, c: Content<Doc>): Option<Doc> {
    match c
    case Serialised(doc) => Some(doc)
    case Verbatim => Some(original)
    case Unfinished => None
  }

  /** Where to save: the path, and what the file system says of it. */
  datatype Destination = Destination(path: Id, isDirectory: bool, parentExists: bool)

  datatype Fault = NoFault | CannotCreate | CannotFinish

  // ---------------------------------------------------------------- the session

  class DraftSession<Doc(==), Res> {
    const resolve: Doc -> Result<Res>
    const path: Id
    const original: Doc
    var raw: Doc
    var resolution: Res
    var stage: string
    var lastError: Option<string>
    var undoStack: seq<Doc>
    var savedPath: Option<Id>
    var disk: map<Id, Content<Doc>>

    ghost function Held(): Draft<Doc, Res>
      reads this
    {
      Draft(original, raw, resolution, stage, lastError, undoStack, savedPath)
    }

    /** The draft is sound, and the file being edited holds the bytes it was opened from. */
    ghost predicate Valid()
      reads this
    {
      Sound(resolve, Held()) && path in disk && disk[path] == Verbatim
    }

    constructor (resolve: Doc -> Result<Res>, path: Id, original: Doc, resolution: Res, disk: map<Id, Content<Doc>>)
      requires resolve(original) == Ok(resolution) && path in disk && disk[path] == Verbatim
      ensures Valid() && this.resolve == resolve && this.path == path && this.disk == disk
      ensures Held() == Draft(original, original, resolution, "loaded", None, [], None)
    {
      this.resolve, this.path, this.original, this.disk := resolve, path, original, disk;
      raw, this.resolution, stage, lastError, undoStack, savedPath := original, resolution, "loaded", None, [], None;
    }

    /** `open`: only a document that resolves gets a session. */
    static method Open(resolve: Doc -> Result<Res>, path: Id, document: Doc, disk: map<Id, Content<Doc>>)
      returns (r: Result<DraftSession<Doc, Res>>)
      requires path in disk && disk[path] == Verbatim
      ensures r.Ok? <==> resolve(document).Ok?
      ensures r.Ok? ==>
              fresh(r.value) && r.value.Valid() && r.value.resolve == resolve && r.value.path == path &&
              r.value.disk == disk
      ensures r.Ok? ==> r.value.Held() == Draft(document, document, resolve(document).value, "loaded", None, [], None)
    {
      var resolution := resolve(document);
      match resolution
      case Fail(e) => r := Fail(e);
      case Ok(value) =>
        var session := new DraftSession(resolve, path, document, value, disk);
        r := Ok(session);
    }

    /** Commit a change only if the changed copy still resolves. */
    method Apply(change: Doc -> Result<Doc>, stage: string) returns (ok: bool)
      requires Valid()
      modifies this
      ensures Valid() && disk == old(disk)
      ensures ok <==> Candidate(resolve, old(Held()), change).Ok?
      ensures Held() == Happened(resolve, old(Held()), Edit(change, stage))
      ensures Held() == Edited(resolve, old(Held()), change, stage)
    {
      var candidate := change(raw);
      if candidate.Fail? {
        lastError := Some(candidate.error);
        return false;
      }
      var resolved := resolve(candidate.value);
      if resolved.Fail? {
        lastError := Some(resolved.error);
        return false;
      }
      undoStack := undoStack + [raw];
      raw := candidate.value;
      resolution := resolved.value;
      this.stage := stage;
      lastError := None;
      ok := true;
    }

    /** Undo never raises: the restored document resolves. */
    method Undo() returns (r: Result<bool>)
      requires Valid()
      modifies this
      ensures Valid() && disk == old(disk)
      ensures r == Ok(old(undoStack) != [])
      ensures Held() == Happened(resolve, old(Held()), Event.Undo)
    {
      if undoStack == [] {
        return Ok(false);
      }
      raw, undoStack := undoStack[|undoStack| - 1], undoStack[..|undoStack| - 1];
      var resolved := resolve(raw);
      match resolved {
        case Fail(e) => return Fail(e);
        case Ok(value) => resolution := value;
      }
      lastError := None;
      stage := "undo";
      r := Ok(true);
    }

    /** Reset never raises either. */
    method Reset() returns (r: Result<bool>)
      requires Valid()
      modifies this
      ensures Valid() && disk == old(disk)
      ensures r == Ok(true)
      ensures Held() == Happened(resolve, old(Held()), Event.Reset)
    {
      undoStack := [];
      raw := original;
      var resolved := resolve(raw);
      match resolved {
        case Fail(e) => return Fail(e);
        case Ok(value) => resolution := value;
      }
      lastError := None;
      stage := "reset";
      r := Ok(true);
    }

    /**
     * Save to a new file. No existing file is ever changed, the draft is not touched, and what a
     * successful save wrote reads back as the draft.
     */
    method Save(to: Destination, fault: Fault) returns (r: Result<Id>)
      requires Valid()
      modifies this
      ensures Valid()
      ensures r.Ok? <==>
              to.path != path && !to.isDirectory && to.parentExists && to.path !in old(disk) && fault == NoFault
      ensures r.Ok? ==>
              to.path in disk && ReadBack(original, disk[to.path]) == Some(raw) &&
              disk == old(disk)[to.path := disk[to.path]]
      ensures r.Fail? ==>
              disk == old(disk) ||
              (to.path !in old(disk) && fault == CannotFinish && disk == old(disk)[to.path := Unfinished])
      ensures Held() == Happened(resolve, old(Held()), Event.Save(to.path, r.Ok?))
      ensures Held() == if r.Ok? then old(Held()).(savedPath := Some(to.path), lastError := None) else old(Held())
    {
      if to.path == path || to.isDirectory || !to.parentExists {
        return Fail("cannot save there");
      }
      var resolved := resolve(raw);
      match resolved {
        case Fail(e) => return Fail(e);
        case Ok(value) => resolution := value;
      }
      var data := if raw != original then Serialised(raw) else Verbatim;
      if to.path in disk || fault == CannotCreate {
        return Fail("refusing to overwrite an existing file");
      }
      if fault == CannotFinish {
        disk := disk[to.path := Unfinished];
        return Fail("could not finish writing");
      }
      disk := disk[to.path := data];
      savedPath := Some(to.path);
      lastError := None;
      r := Ok(to.path);
    }
  }

  // ---------------------------------------------------------------- whole runs

  datatype Event<!Doc> = Edit(change: Doc -> Result<Doc>, stage: string) | Undo | Reset | Save(path: Id, ok: bool)

  function Happened<Doc, Res>(resolve: Doc -> Result<Res>, d: Draft<Doc, Res>, e: Event<Doc>): Draft<Doc, Res> {
    match e
    case Edit(change, stage) => Edited(resolve, d, change, stage)
    case Undo => Undone(resolve, d)
    case Reset => Restarted(resolve, d)
    case Save(path, ok) => if ok then d.(savedPath := Some(path), lastError := None) else d
  }

  function Run<Doc, Res>(resolve: Doc -> Result<Res>, d: Draft<Doc, Res>, events: seq<Event<Doc>>): Draft<Doc, Res>
    decreases |events|
  {
    if events == [] then d else Run(resolve, Happened(resolve, d, events[0]), events[1..])
  }

  /** In every reachable state the resolution is the draft's, and everything undo or reset can restore resolves. */
  lemma {:induction false} RunKeepsSound<Doc, Res>(resolve: Doc -> Result<Res>, d: Draft<Doc, Res>,
        events: seq<Event<Doc>>)
    requires Sound(resolve, d)
    ensures Sound(resolve, Run(resolve, d, events)) && Run(resolve, d, events).original == d.original
    decreases |events|
  {
    if events != [] {
      RunKeepsSound(resolve, Happened(resolve, d, events[0]), events[1..]);
    }
  }

  /** The events without the edits that get rejected. */
  function Accepted<Doc, Res>(resolve: Doc -> Result<Res>, d: Draft<Doc, Res>, events: seq<Event<Doc>>): seq<Event<Doc>>
    decreases |events|
  {
    if events == [] then []
    else
      (if events[0].Edit? && Candidate(resolve, d, events[0].change).Fail? then [] else [events[0]])
      + Accepted(resolve, Happened(resolve, d, events[0]), events[1..])
  }

  /** Rejected edits leave no trace: without them, every run ends in the same draft but for the reported error. */
  lemma {:induction false} RejectionChangesNothing<Doc, Res>(resolve: Doc -> Result<Res>, d: Draft<Doc, Res>,
        e: Draft<Doc, Res>, events: seq<Event<Doc>>)
    requires d == e.(lastError := d.lastError)
    ensures var r := Run(resolve, d, events);
      r == Run(resolve, e, Accepted(resolve, d, events)).(lastError := r.lastError)
    decreases |events|
  {
    if events != [] {
      var next, rest := Happened(resolve, d, events[0]), events[1..];
      if events[0].Edit? && Candidate(resolve, d, events[0].change).Fail? {
        RejectionChangesNothing(resolve, next, e, rest);
        assert [] + Accepted(resolve, next, rest) == Accepted(resolve, next, rest);
      } else {
        RejectionChangesNothing(resolve, next, Happened(resolve, e, events[0]), rest);
        assert ([events[0]] + Accepted(resolve, next, rest))[1..] == Accepted(resolve, next, rest);
      }
    }
  }

  predicate Quiet<Doc>(events: seq<Event<Doc>>) {
    forall i :: 0 <= i < |events| ==> events[i].Edit? || events[i].Save?
  }

  /** How many edits of a run are committed. */
  function Commits<Doc, Res>(resolve: Doc -> Result<Res>, d: Draft<Doc, Res>, events: seq<Event<Doc>>): nat
    decreases |events|
  {
    if events == [] then 0
    else
      (if events[0].Edit? && Candidate(resolve, d, events[0].change).Ok? then 1 else 0)
      + Commits(resolve, Happened(resolve, d, events[0]), events[1..])
  }

  function Undos<Doc, Res>(resolve: Doc -> Result<Res>, d: Draft<Doc, Res>, k: nat): Draft<Doc, Res>
    decreases k
  {
    if k == 0 then d else Undos(resolve, Undone(resolve, d), k - 1)
  }

  lemma {:induction false} UndosSnoc<Doc, Res>(resolve: Doc -> Result<Res>, d: Draft<Doc, Res>, k: nat)
    ensures Undos(resolve, d, k + 1) == Undone(resolve, Undos(resolve, d, k))
    decreases k
  {
    if k > 0 { UndosSnoc(resolve, Undone(resolve, d), k - 1); }
  }

  /**
   * k commits, with rejected edits and saves between them, followed by k undos restore the draft,
   * its resolution and its stack.
   */
  lemma {:induction false} UndosRestore<Doc, Res>(resolve: Doc -> Result<Res>, d: Draft<Doc, Res>,
                                                  events: seq<Event<Doc>>)
    requires Sound(resolve, d) && Quiet(events)
    ensures var r := Undos(resolve, Run(resolve, d, events), Commits(resolve, d, events));
            r.raw == d.raw && r.resolution == d.resolution && r.undoStack == d.undoStack && r.original == d.original
    decreases |events|
  {
    if events != [] {
      var next := Happened(resolve, d, events[0]);
      var rest := events[1..];
      UndosRestore(resolve, next, rest);
      var end := Run(resolve, next, rest);
      var k := Commits(resolve, next, rest);
      if events[0].Edit? && Candidate(resolve, d, events[0].change).Ok? {
        UndosSnoc(resolve, end, k);
        assert next.undoStack[..|d.undoStack|] == d.undoStack;
      }
    }
  }
}
