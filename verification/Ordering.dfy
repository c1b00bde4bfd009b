/** Python's order on strings, and stable sorting by a key. */
module Ordering {

  /** An identifier from the inventory: the key of a JSON object. */
  datatype Id = Id(text: string)

  /** Lexicographic order by code point: Python's `<=` on str. */
  predicate StrLe(a: string, b: string) {
    a == [] || (b != [] && (a[0] < b[0] || (a[0] == b[0] && StrLe(a[1..], b[1..]))))
  }

  lemma {:induction false} StrLeTotal(a: string, b: string)
    ensures StrLe(a, b) || StrLe(b, a)
  {
    if a != [] && b != [] {
      StrLeTotal(a[1..], b[1..]);
    }
  }

  lemma {:induction false} StrLeAntisymmetric(a: string, b: string)
    requires StrLe(a, b) && StrLe(b, a)
    ensures a == b
  {
    if a != [] && b != [] {
      StrLeAntisymmetric(a[1..], b[1..]);
      assert a == [a[0]] + a[1..] && b == [b[0]] + b[1..];
    }
  }

  lemma {:induction false} StrLeTransitive(a: string, b: string, c: string)
    requires StrLe(a, b) && StrLe(b, c)
    ensures StrLe(a, c)
  {
    if a != [] && b != [] && c != [] && a[0] == b[0] == c[0] {
      StrLeTransitive(a[1..], b[1..], c[1..]);
    }
  }

  /** A sort key: two ranks, then an identifier. Python compares such tuples lexicographically. */
  datatype Key = Key(major: nat, minor: nat, id: Id)

  predicate KeyLe(a: Key, b: Key) {
    || a.major < b.major
    || (a.major == b.major && a.minor < b.minor)
    || (a.major == b.major && a.minor == b.minor && StrLe(a.id.text, b.id.text))
  }

  lemma KeyLeTotal(a: Key, b: Key)
    ensures KeyLe(a, b) || KeyLe(b, a)
    ensures KeyLe(a, b) && KeyLe(b, a) ==> a == b
  {
    StrLeTotal(a.id.text, b.id.text);
    if KeyLe(a, b) && KeyLe(b, a) { StrLeAntisymmetric(a.id.text, b.id.text); }
  }

  lemma KeyLeTransitive(a: Key, b: Key, c: Key)
    requires KeyLe(a, b) && KeyLe(b, c)
    ensures KeyLe(a, c)
  {
    if StrLe(a.id.text, b.id.text) && StrLe(b.id.text, c.id.text) { StrLeTransitive(a.id.text, b.id.text, c.id.text); }
  }

  ghost predicate Sorted<T>(s: seq<T>, key: T -> Key) {
    forall i, j :: 0 <= i < j < |s| ==> KeyLe(key(s[i]), key(s[j]))
  }

  /** Distinct elements have distinct keys, and no element occurs twice. */
  ghost predicate DistinctKeys<T>(s: seq<T>, key: T -> Key) {
    forall i, j :: 0 <= i < j < |s| ==> key(s[i]) != key(s[j])
  }

  function Insert<T>(x: T, s: seq<T>, key: T -> Key): (r: seq<T>)
    ensures multiset(r) == multiset(s) + multiset{x}
  {
    if s == [] then [x]
    else if KeyLe(key(x), key(s[0])) then
      assert [x] + s == [x] + s; [x] + s
    else
      assert s == [s[0]] + s[1..];
      [s[0]] + Insert(x, s[1..], key)
  }

  /** Python's `sorted(s, key=key)`. */
  function SortBy<T>(s: seq<T>, key: T -> Key): (r: seq<T>)
    ensures multiset(r) == multiset(s)
  {
    if s == [] then []
    else
      assert s == [s[0]] + s[1..];
      Insert(s[0], SortBy(s[1..], key), key)
  }

  lemma SortMembers<T(!new)>(s: seq<T>, key: T -> Key)
    ensures |SortBy(s, key)| == |s|
    ensures forall x :: x in SortBy(s, key) <==> x in s
  {
    var r := SortBy(s, key);
    assert |multiset(r)| == |r| && |multiset(s)| == |s|;
    assert forall x :: x in r <==> x in multiset(r);
  }

  lemma {:induction false} InsertDistinct<T>(x: T, s: seq<T>, key: T -> Key)
    requires DistinctKeys(s, key)
    requires forall i :: 0 <= i < |s| ==> key(s[i]) != key(x)
    ensures DistinctKeys(Insert(x, s, key), key)
  {
    if s != [] && !KeyLe(key(x), key(s[0])) {
      InsertDistinct(x, s[1..], key);
      var t := Insert(x, s[1..], key);
      forall j | 0 <= j < |t| ensures key(t[j]) != key(s[0]) {
        assert t[j] in multiset(t);
        if t[j] != x {
          assert t[j] in multiset(s[1..]);
          assert t[j] in s[1..];
        }
      }
    }
  }

  lemma {:induction false} SortDistinct<T(!new)>(s: seq<T>, key: T -> Key)
    requires DistinctKeys(s, key)
    ensures DistinctKeys(SortBy(s, key), key)
  {
    if s != [] {
      SortDistinct(s[1..], key);
      SortMembers(s[1..], key);
      var t := SortBy(s[1..], key);
      forall i | 0 <= i < |t| ensures key(t[i]) != key(s[0]) {
        assert t[i] in s[1..];
      }
      InsertDistinct(s[0], t, key);
    }
  }

  lemma {:induction false} InsertSorts<T>(x: T, s: seq<T>, key: T -> Key)
    requires Sorted(s, key)
    ensures Sorted(Insert(x, s, key), key)
  {
    if s != [] {
      if KeyLe(key(x), key(s[0])) {
        var r := [x] + s;
        forall j | 0 < j < |r| ensures KeyLe(key(r[0]), key(r[j])) {
          if j > 1 { KeyLeTransitive(key(x), key(s[0]), key(s[j - 1])); }
        }
      } else {
        InsertSorts(x, s[1..], key);
        var t := Insert(x, s[1..], key);
        var r := [s[0]] + t;
        KeyLeTotal(key(x), key(s[0]));
        forall j | 0 < j < |r| ensures KeyLe(key(r[0]), key(r[j])) {
          assert t[j - 1] in multiset(t);
          if t[j - 1] != x {
            assert t[j - 1] in multiset(s[1..]);
            assert t[j - 1] in s[1..];
          }
        }
      }
    }
  }

  lemma {:induction false} SortSorts<T>(s: seq<T>, key: T -> Key)
    ensures Sorted(SortBy(s, key), key)
  {
    if s != [] {
      SortSorts(s[1..], key);
      InsertSorts(s[0], SortBy(s[1..], key), key);
    }
  }

  /** Two sorted sequences over the same elements coincide once keys are distinct. */
  lemma {:induction false} SortedUnique<T(!new)>(a: seq<T>, b: seq<T>, key: T -> Key)
    requires Sorted(a, key) && Sorted(b, key)
    requires DistinctKeys(a, key) && DistinctKeys(b, key)
    requires forall x :: x in a <==> x in b
    ensures a == b
  {
    assert forall i :: 0 <= i < |a| ==> a[i] in b;
    assert forall i :: 0 <= i < |b| ==> b[i] in a;
    if a != [] && b != [] {
      assert a[0] in b && b[0] in a;
      var i :| 0 <= i < |b| && b[i] == a[0];
      var j :| 0 <= j < |a| && a[j] == b[0];
      KeyLeTotal(key(a[0]), key(b[0]));
      assert key(a[0]) == key(b[0]);
      assert i == 0;
      forall x ensures x in a[1..] <==> x in b[1..] {
        assert x in a <==> x == a[0] || x in a[1..];
        assert x in b <==> x == b[0] || x in b[1..];
        if x in a[1..] { var k :| 0 <= k < |a[1..]| && a[1..][k] == x; assert a[k + 1] == x; }
        if x in b[1..] { var k :| 0 <= k < |b[1..]| && b[1..][k] == x; assert b[k + 1] == x; }
      }
      SortedUnique(a[1..], b[1..], key);
      assert a == [a[0]] + a[1..] && b == [b[0]] + b[1..];
    }
  }

  // ---------------------------------------------------------------- what the order is

  /** `a` is a prefix of `b`, or has the smaller character where they first differ. */
  ghost predicate Alphabetical(a: string, b: string) {
    || (|a| <= |b| && a == b[..|a|])
    || exists k :: 0 <= k < |a| && k < |b| && a[..k] == b[..k] && a[k] < b[k]
  }

  lemma {:induction false} StrLeIff(a: string, b: string)
    ensures StrLe(a, b) <==> Alphabetical(a, b)
  {
    if a != [] && b != [] && a[0] == b[0] {
      StrLeIff(a[1..], b[1..]);
      assert a == [a[0]] + a[1..] && b == [b[0]] + b[1..];
      if Alphabetical(a[1..], b[1..]) {
        if k :| 0 <= k < |a[1..]| && k < |b[1..]| && a[1..][..k] == b[1..][..k] && a[1..][k] < b[1..][k] {
          assert a[..k + 1] == [a[0]] + a[1..][..k] && b[..k + 1] == [b[0]] + b[1..][..k];
        }
      }
      if k :| 0 <= k < |a| && k < |b| && a[..k] == b[..k] && a[k] < b[k] {
        assert a[1..][..k - 1] == a[..k][1..] && b[1..][..k - 1] == b[..k][1..];
      }
    }
  }

  ghost predicate ComesBefore<T(!new)>(x: T, y: T, key: T -> Key) {
    key(x) != key(y) && KeyLe(key(x), key(y))
  }

  /** In a sorted sequence exactly the elements that come before an element precede it. */
  lemma PrefixMeans<T(!new)>(s: seq<T>, key: T -> Key, i: nat)
    requires Sorted(s, key) && DistinctKeys(s, key) && i < |s|
    ensures forall x :: x in s[..i] <==> x in s && ComesBefore(x, s[i], key)
  {
    forall x | x in s ensures x in s[..i] <==> ComesBefore(x, s[i], key) {
      var j :| 0 <= j < |s| && s[j] == x;
      if j < i {
        assert s[..i][j] == x;
      } else if j > i {
        KeyLeTotal(key(s[i]), key(x));
        assert forall m :: 0 <= m < i ==> key(s[m]) != key(s[j]);
      }
    }
  }

  /** A place in a sorted sequence is the number of elements that come before. */
  lemma PlaceIsCount<T(!new)>(s: seq<T>, key: T -> Key, i: nat, before: set<T>)
    requires Sorted(s, key) && DistinctKeys(s, key) && i < |s|
    requires forall x :: x in before <==> x in s && ComesBefore(x, s[i], key)
    ensures i == |before|
  {
    PrefixMeans(s, key, i);
    SizeOfDistinct(s[..i], key);
    assert before == set x | x in s[..i];
  }

  lemma {:induction false} SizeOfDistinct<T>(s: seq<T>, key: T -> Key)
    requires DistinctKeys(s, key)
    ensures |set x | x in s| == |s|
  {
    if s != [] {
      var n := |s| - 1;
      SizeOfDistinct(s[..n], key);
      assert s == s[..n] + [s[n]];
      assert s[n] !in s[..n];
      assert (set x | x in s) == (set x | x in s[..n]) + {s[n]};
    }
  }

  function WithKey<T>(s: seq<T>, key: T -> Key, k: Key): seq<T> {
    if s == [] then [] else (if key(s[0]) == k then [s[0]] else []) + WithKey(s[1..], key, k)
  }

  /** Sorting is stable: elements with the same key keep their order. */
  lemma {:induction false} SortIsStable<T>(s: seq<T>, key: T -> Key, k: Key)
    ensures WithKey(SortBy(s, key), key, k) == WithKey(s, key, k)
  {
    if s != [] {
      SortIsStable(s[1..], key, k);
      SortSorts(s[1..], key);
      InsertIsStable(s[0], SortBy(s[1..], key), key, k);
    }
  }

  lemma {:induction false} InsertIsStable<T>(x: T, s: seq<T>, key: T -> Key, k: Key)
    requires Sorted(s, key)
    ensures WithKey(Insert(x, s, key), key, k) == (if key(x) == k then [x] else []) + WithKey(s, key, k)
  {
    if s != [] && !KeyLe(key(x), key(s[0])) {
      InsertIsStable(x, s[1..], key, k);
      if key(x) == k {
        KeyLeTotal(k, k);
        assert key(s[0]) != k;
      }
      assert ([s[0]] + Insert(x, s[1..], key))[1..] == Insert(x, s[1..], key);
    } else {
      assert ([x] + s)[1..] == s;
    }
  }
}
