/** Override merging: a right-biased, shape-guarded update of a tree. */
module Merging {
  import opened Ordering
  import opened Model

  /** A JSON value: an object, or anything else. */
  datatype Json = Obj(fields: map<Id, Json>) | Leaf(text: string)

  /** Where both are objects, the override names only keys of the base, at every depth. */
  predicate Fits(b: Json, o: Json)
    decreases o
  {
    b.Obj? && o.Obj? ==> forall k :: k in o.fields ==> k in b.fields && Fits(b.fields[k], o.fields[k])
  }

  /** Objects are merged key by key; anything else is replaced. */
  function Merged(b: Json, o: Json): Json
    decreases o
  {
    if b.Obj? && o.Obj? then
      if b.fields == map[] then b
      else Obj(map k | k in b.fields :: if k in o.fields then Merged(b.fields[k], o.fields[k]) else b.fields[k])
    else o
  }

  /** The keys done so far are merged, the others still those of the base. */
  ghost predicate Progress(b: Json, o: Json, pending: set<Id>, result: map<Id, Json>)
    requires b.Obj? && o.Obj?
  {
    && result.Keys == b.fields.Keys
    && forall k :: k in b.fields ==>
        result[k] == if k in o.fields && k !in pending then Merged(b.fields[k], o.fields[k]) else b.fields[k]
  }

  /** `_merge`: fails at the first key the base lacks, in whatever order the override lists them. */
  method Merge(b: Json, o: Json) returns (r: Option<Json>)
    requires b.Obj? && o.Obj?
    ensures r.Some? <==> Fits(b, o)
    ensures r.Some? ==> r.value == Merged(b, o)
    decreases o
  {
    var result := b.fields;
    var pending := o.fields.Keys;
    while pending != {}
      invariant pending <= o.fields.Keys && Progress(b, o, pending, result)
      invariant forall k :: k in o.fields && k !in pending ==> k in b.fields && Fits(b.fields[k], o.fields[k])
      decreases |pending|
    {
      var k :| k in pending;
      if k !in result {
        return None;
      }
      if o.fields[k].Obj? && result[k].Obj? {
        var inner := Merge(result[k], o.fields[k]);
        if inner.None? {
          return None;
        }
        result := result[k := inner.value];
      } else {
        result := result[k := o.fields[k]];
      }
      pending := pending - {k};
    }
    assert result == Merged(b, o).fields;
    r := Some(Obj(result));
  }

  // ---------------------------------------------------------------- what it means, path by path

  /** The value at a path of keys. */
  function At(j: Json, path: seq<Id>): Option<Json> {
    if path == [] then Some(j)
    else if j.Obj? && path[0] in j.fields then At(j.fields[path[0]], path[1..])
    else None
  }

  /** The path leads to an object in both trees. */
  predicate ObjectInBoth(b: Json, o: Json, path: seq<Id>) {
    At(b, path).Some? && At(b, path).value.Obj? && At(o, path).Some? && At(o, path).value.Obj?
  }

  /** A key the override sets at an object of both trees, absent from the base. */
  ghost predicate UnknownKey(b: Json, o: Json, path: seq<Id>, k: Id) {
    ObjectInBoth(b, o, path) && k in At(o, path).value.fields && k !in At(b, path).value.fields
  }

  /** Merging fails exactly when, at an object reached in both trees, the override names a key the base lacks. */
  lemma {:induction false} FitsIff(b: Json, o: Json)
    ensures Fits(b, o) <==> forall path, k :: !UnknownKey(b, o, path, k)
    decreases o
  {
    if Fits(b, o) {
      forall path, k ensures !UnknownKey(b, o, path, k) {
        NoUnknownKey(b, o, path, k);
      }
    } else {
      var path, k := FindUnknownKey(b, o);
    }
  }

  lemma {:induction false} NoUnknownKey(b: Json, o: Json, path: seq<Id>, k: Id)
    requires Fits(b, o)
    ensures !UnknownKey(b, o, path, k)
    decreases path
  {
    if path != [] && b.Obj? && o.Obj? && path[0] in b.fields && path[0] in o.fields {
      NoUnknownKey(b.fields[path[0]], o.fields[path[0]], path[1..], k);
    }
  }

  lemma {:induction false} FindUnknownKey(b: Json, o: Json) returns (path: seq<Id>, k: Id)
    requires !Fits(b, o)
    ensures UnknownKey(b, o, path, k)
    decreases o
  {
    var key :| key in o.fields && !(key in b.fields && Fits(b.fields[key], o.fields[key]));
    if key !in b.fields {
      path, k := [], key;
    } else {
      path, k := FindUnknownKey(b.fields[key], o.fields[key]);
      path := [key] + path;
    }
  }

  /** The override replaces the value at the path or at a prefix of it. */
  ghost predicate Replaces(b: Json, o: Json, path: seq<Id>) {
    exists i :: 0 <= i <= |path| && At(o, path[..i]).Some? && !ObjectInBoth(b, o, path[..i])
  }

  /**
   * The three things that can hold of a path after merging: replaced by the override, still an
   * object of both, or untouched.
   */
  lemma {:induction false} MergedAt(b: Json, o: Json, path: seq<Id>)
    requires Fits(b, o)
    ensures Replaces(b, o, path) ==> At(Merged(b, o), path) == At(o, path)
    ensures ObjectInBoth(b, o, path) ==>
              At(Merged(b, o), path) == Some(Merged(At(b, path).value, At(o, path).value))
              && At(Merged(b, o), path).value.Obj? &&
                  At(Merged(b, o), path).value.fields.Keys == At(b, path).value.fields.Keys
    ensures !Replaces(b, o, path) && !ObjectInBoth(b, o, path) ==> At(Merged(b, o), path) == At(b, path)
    decreases path
  {
    assert path[..0] == [];
    if b.Obj? && o.Obj? {
      if path == [] {
        assert !Replaces(b, o, path);
      } else if path[0] in o.fields {
        var b0, o0 := b.fields[path[0]], o.fields[path[0]];
        MergedAt(b0, o0, path[1..]);
        ReplacesBelow(b, o, path);
      } else {
        NotReplaced(b, o, path);
      }
    } else {
      assert At(o, path[..0]).Some? && !ObjectInBoth(b, o, path[..0]);
    }
  }

  lemma PrefixBelow(path: seq<Id>, i: nat)
    requires 0 < i <= |path|
    ensures path[..i][0] == path[0] && path[..i][1..] == path[1..][..i - 1]
  {
  }

  lemma ReplacesBelow(b: Json, o: Json, path: seq<Id>)
    requires b.Obj? && o.Obj? && path != [] && path[0] in o.fields && path[0] in b.fields
    ensures Replaces(b, o, path) <==> Replaces(b.fields[path[0]], o.fields[path[0]], path[1..])
  {
    var b0, o0, rest := b.fields[path[0]], o.fields[path[0]], path[1..];
    if Replaces(b, o, path) {
      var i :| 0 <= i <= |path| && At(o, path[..i]).Some? && !ObjectInBoth(b, o, path[..i]);
      assert i > 0;
      PrefixBelow(path, i);
      assert At(o0, rest[..i - 1]).Some? && !ObjectInBoth(b0, o0, rest[..i - 1]);
    }
    if Replaces(b0, o0, rest) {
      var i :| 0 <= i <= |rest| && At(o0, rest[..i]).Some? && !ObjectInBoth(b0, o0, rest[..i]);
      PrefixBelow(path, i + 1);
      assert At(o, path[..i + 1]).Some? && !ObjectInBoth(b, o, path[..i + 1]);
    }
  }

  lemma NotReplaced(b: Json, o: Json, path: seq<Id>)
    requires b.Obj? && o.Obj? && path != [] && path[0] !in o.fields
    ensures !Replaces(b, o, path) && !ObjectInBoth(b, o, path)
  {
    forall i | 0 < i <= |path| ensures At(o, path[..i]).None? {
      PrefixBelow(path, i);
    }
  }

  // ---------------------------------------------------------------- idempotence

  /** An override fits what it produced, and merging it again changes nothing. */
  lemma {:induction false} MergeIdempotent(b: Json, o: Json)
    requires Fits(b, o)
    ensures Fits(Merged(b, o), o) && Merged(Merged(b, o), o) == Merged(b, o)
    decreases o
  {
    if b.Obj? && o.Obj? {
      var m := Merged(b, o);
      forall k | k in o.fields
        ensures k in m.fields && Fits(m.fields[k], o.fields[k]) && Merged(m.fields[k], o.fields[k]) == m.fields[k]
      {
        MergeIdempotent(b.fields[k], o.fields[k]);
      }
      assert Merged(m, o).fields == m.fields;
    } else {
      OverItself(o);
    }
  }

  lemma {:induction false} OverItself(o: Json)
    ensures Fits(o, o) && Merged(o, o) == o
    decreases o
  {
    if o.Obj? {
      forall k | k in o.fields
        ensures Fits(o.fields[k], o.fields[k]) && Merged(o.fields[k], o.fields[k]) == o.fields[k]
      {
        OverItself(o.fields[k]);
      }
      assert Merged(o, o).fields == o.fields;
    }
  }
}
