/** Positional instance names: numbered groups of validators and observers. */
module Naming {
  import opened Ordering
  import opened Model

  // ---------------------------------------------------------------- zero-padded numbers

  function Digits(n: nat): string {
    if n < 10 then [('0' as int + n) as char] else Digits(n / 10) + [('0' as int + n % 10) as char]
  }

  /** The format `02d`. */
  function Padded(n: nat): string {
    if n < 10 then ['0'] + Digits(n) else Digits(n)
  }

  function Value(s: string): int {
    if s == [] then 0 else 10 * Value(s[..|s| - 1]) + (s[|s| - 1] as int - '0' as int)
  }

  lemma {:induction false} DigitsValue(n: nat)
    ensures Digits(n) != [] && Value(Digits(n)) == n
  {
    if n < 10 {
      assert Digits(n)[..0] == [];
    } else {
      DigitsValue(n / 10);
      assert Digits(n)[..|Digits(n)| - 1] == Digits(n / 10);
    }
  }

  lemma PaddedValue(n: nat)
    ensures Value(Padded(n)) == n
  {
    DigitsValue(n);
    if n < 10 {
      var s := Padded(n);
      assert s[..1] == ['0'] && s[..1][..0] == [];
    }
  }

  /** At least two decimal digits that spell the number, with a leading zero only to fill up to two. */
  lemma PaddedMeans(n: nat)
    ensures Value(Padded(n)) == n && |Padded(n)| >= 2 && (|Padded(n)| > 2 ==> Padded(n)[0] != '0')
    ensures forall i :: 0 <= i < |Padded(n)| ==> '0' <= Padded(n)[i] <= '9'
  {
    PaddedValue(n);
    DigitsAreDecimal(n);
  }

  lemma {:induction false} DigitsAreDecimal(n: nat)
    ensures n >= 10 ==> |Digits(n)| >= 2 && Digits(n)[0] != '0'
    ensures n > 0 ==> Digits(n)[0] != '0'
    ensures Digits(n) != [] && forall i :: 0 <= i < |Digits(n)| ==> '0' <= Digits(n)[i] <= '9'
  {
    if n >= 10 { DigitsAreDecimal(n / 10); }
  }

  function InstanceName(prefix: string, n: nat): Id {
    Id(prefix + Padded(n))
  }

  /** Two instances of one family never share a name. */
  lemma NamesInjective(prefix: string, m: nat, n: nat)
    requires InstanceName(prefix, m) == InstanceName(prefix, n)
    ensures m == n
  {
    assert (prefix + Padded(m))[|prefix|..] == Padded(m);
    assert (prefix + Padded(n))[|prefix|..] == Padded(n);
    PaddedValue(m);
    PaddedValue(n);
  }

  // ---------------------------------------------------------------- numbering

  /** A declared group and how many instances it asks for. */
  datatype Quota = Quota(group: Id, count: nat)

  datatype Instance = Instance(name: Id, group: Id)

  function Total(groups: seq<Quota>): nat {
    if groups == [] then 0 else Total(groups[..|groups| - 1]) + groups[|groups| - 1].count
  }

  /** The index of the first instance of the k-th group. */
  function Start(groups: seq<Quota>, k: nat): nat
    requires k <= |groups|
  {
    Total(groups[..k])
  }

  /** The group whose interval holds position i. */
  function Owner(groups: seq<Quota>, i: nat): (k: nat)
    requires i < Total(groups)
    ensures k < |groups|
  {
    var n := |groups| - 1;
    if i < Total(groups[..n]) then Owner(groups[..n], i) else n
  }

  /** Position i is owned by group k exactly when it lies in the group's interval. */
  lemma {:induction false} OwnerIff(groups: seq<Quota>, i: nat, k: nat)
    requires i < Total(groups) && k < |groups|
    ensures Owner(groups, i) == k <==> Start(groups, k) <= i < Start(groups, k) + groups[k].count
    ensures Start(groups, k) + groups[k].count <= Total(groups)
  {
    var n := |groups| - 1;
    StartMonotone(groups, k);
    if i < Total(groups[..n]) && k < n {
      OwnerIff(groups[..n], i, k);
      assert groups[..n][..k] == groups[..k];
    }
    if i < Total(groups[..n]) && k == n {
      assert Owner(groups, i) < n;
    }
  }

  lemma {:induction false} StartMonotone(groups: seq<Quota>, k: nat)
    requires k < |groups|
    ensures Start(groups, k) + groups[k].count <= Total(groups)
    ensures k < |groups| - 1 ==> Start(groups, k) + groups[k].count <= Total(groups[..|groups| - 1])
  {
    var n := |groups| - 1;
    if k < n {
      StartMonotone(groups[..n], k);
      assert groups[..n][..k] == groups[..k];
    }
  }

  /** The instances the numbering loops produce. */
  ghost predicate Numbered(prefix: string, groups: seq<Quota>, r: seq<Instance>) {
    |r| == Total(groups) && forall i :: 0 <= i < |r| ==>
        r[i] == Instance(InstanceName(prefix, i + 1), groups[Owner(groups, i)].group)
  }

  lemma NumberedMore(prefix: string, groups: seq<Quota>, q: Quota, r: seq<Instance>, added: seq<Instance>)
    requires Numbered(prefix, groups, r) && |added| == q.count
    requires forall i :: 0 <= i < |added| ==> added[i] == Instance(InstanceName(prefix, Total(groups) + i + 1), q.group)
    ensures Numbered(prefix, groups + [q], r + added)
  {
    var more := groups + [q];
    assert more[..|groups|] == groups;
  }

  /** Numbering: one running index over all groups in declaration order; an empty group is an error. */
  method NumberInstances(prefix: string, groups: seq<Quota>) returns (r: Option<seq<Instance>>)
    ensures r.Some? <==> forall q :: q in groups ==> q.count >= 1
    ensures r.Some? ==> Numbered(prefix, groups, r.value)
  {
    var instances: seq<Instance> := [];
    var index := 1;
    for k := 0 to |groups|
      invariant Numbered(prefix, groups[..k], instances) && index == |instances| + 1
      invariant forall j :: 0 <= j < k ==> groups[j].count >= 1
    {
      var q := groups[k];
      if q.count < 1 {
        assert q in groups;
        return None;
      }
      var added: seq<Instance> := [];
      for n := 0 to q.count
        invariant |added| == n && |added| + |instances| + 1 == index
        invariant forall i :: 0 <= i < |added| ==>
                  added[i] == Instance(InstanceName(prefix, |instances| + i + 1), q.group)
      {
        added := added + [Instance(InstanceName(prefix, index), q.group)];
        index := index + 1;
      }
      NumberedMore(prefix, groups[..k], q, instances, added);
      assert groups[..k + 1] == groups[..k] + [q];
      instances := instances + added;
    }
    assert groups[..|groups|] == groups;
    r := Some(instances);
  }

  function InstanceNames(instances: seq<Instance>): (r: seq<Id>)
    ensures |r| == |instances| && forall i :: 0 <= i < |r| ==> r[i] == instances[i].name
  {
    seq(|instances|, i requires 0 <= i < |instances| => instances[i].name)
  }

  /** No instance overwrites another in the dict they are collected in. */
  lemma InstancesDistinct(prefix: string, groups: seq<Quota>, r: seq<Instance>)
    requires Numbered(prefix, groups, r)
    ensures NoRepeats(InstanceNames(r))
  {
    forall i, j | 0 <= i < j < |r| ensures r[i].name != r[j].name {
      if r[i].name == r[j].name { NamesInjective(prefix, i + 1, j + 1); }
    }
  }

  // ---------------------------------------------------------------- stability

  /** Declaring a group last renames and moves no existing instance. */
  lemma AppendingKeepsNames(prefix: string, groups: seq<Quota>, q: Quota, before: seq<Instance>, after: seq<Instance>)
    requires Numbered(prefix, groups, before) && Numbered(prefix, groups + [q], after)
    ensures before <= after && forall i :: |before| <= i < |after| ==> after[i].group == q.group
  {
    assert (groups + [q])[..|groups|] == groups;
  }

  function Without(groups: seq<Quota>, j: nat): seq<Quota>
    requires j < |groups|
  {
    groups[..j] + groups[j + 1..]
  }

  /** Removing a group shortens every later start by its count and leaves earlier ones alone. */
  lemma {:induction false} StartsAfterRemoval(groups: seq<Quota>, j: nat, k: nat)
    requires j < |groups| && k < |groups|
    ensures k <= j ==> Start(Without(groups, j), k) == Start(groups, k)
    ensures k > j ==> Start(Without(groups, j), k - 1) + groups[j].count == Start(groups, k)
    decreases k
  {
    var rest := Without(groups, j);
    if k <= j {
      assert rest[..k] == groups[..k];
    } else {
      assert groups[..k][..k - 1] == groups[..k - 1];
      if k - 1 > j {
        StartsAfterRemoval(groups, j, k - 1);
        assert rest[..k - 1][..k - 2] == rest[..k - 2] && rest[..k - 1][k - 2] == groups[k - 1];
      } else {
        assert rest[..k - 1] == groups[..k - 1];
      }
    }
  }

  lemma {:induction false} TotalAfterRemoval(groups: seq<Quota>, j: nat)
    requires j < |groups|
    ensures Total(Without(groups, j)) + groups[j].count == Total(groups)
    decreases |groups|
  {
    var n := |groups| - 1;
    if j == n {
      assert Without(groups, j) == groups[..n];
    } else {
      TotalAfterRemoval(groups[..n], j);
      var rest := Without(groups, j);
      assert rest[..|rest| - 1] == Without(groups[..n], j) && rest[|rest| - 1] == groups[n];
    }
  }

  /**
   * The new owner of a position: its old group before the removed one, else the group that used to
   * start `count` places later.
   */
  lemma OwnerAfterRemoval(groups: seq<Quota>, j: nat, i: nat)
    requires j < |groups| && i < Total(Without(groups, j))
    ensures Total(Without(groups, j)) + groups[j].count == Total(groups)
    ensures i < Start(groups, j) ==> Without(groups, j)[Owner(Without(groups, j), i)] == groups[Owner(groups, i)]
    ensures i >= Start(groups, j) ==>
              Without(groups, j)[Owner(Without(groups, j), i)] == groups[Owner(groups, i + groups[j].count)]
              && Owner(groups, i + groups[j].count) > j
  {
    var rest, c := Without(groups, j), groups[j].count;
    TotalAfterRemoval(groups, j);
    var k := Owner(rest, i);
    OwnerIff(rest, i, k);
    var former := if k < j then k else k + 1;
    StartsAfterRemoval(groups, j, former);
    StartsAfterRemoval(groups, j, j);
    StartMonotone(groups, j);
    if k < j {
      OwnerIff(groups, i, k);
      StartBefore(groups, k, j);
    } else {
      StartBefore(groups, j, k + 1);
      OwnerIff(groups, i + c, k + 1);
    }
  }

  lemma {:induction false} StartBefore(groups: seq<Quota>, k: nat, j: nat)
    requires k < j < |groups|
    ensures Start(groups, k) + groups[k].count <= Start(groups, j)
    decreases j
  {
    assert groups[..j][..j - 1] == groups[..j - 1];
    if k < j - 1 { StartBefore(groups, k, j - 1); }
  }

  ghost predicate DistinctQuotas(groups: seq<Quota>) {
    forall i, j :: 0 <= i < j < |groups| ==> groups[i].group != groups[j].group
  }

  /**
   * After removing the j-th group, a name that still exists stays in its group exactly when it was numbered
   * before that group, or lies at least the removed count before the end of a later group.
   */
  lemma NameKeepsGroupIff(prefix: string, groups: seq<Quota>, j: nat, before: seq<Instance>, after: seq<Instance>,
                          i: nat)
    requires DistinctQuotas(groups) && j < |groups|
    requires Numbered(prefix, groups, before) && Numbered(prefix, Without(groups, j), after) && i < |after|
    ensures |after| + groups[j].count == |before| && before[i].name == after[i].name
    ensures before[i].group == after[i].group <==>
            var k := Owner(groups, i);
            k < j || (k > j && i + groups[j].count < Start(groups, k) + groups[k].count)
  {
    var c := groups[j].count;
    OwnerAfterRemoval(groups, j, i);
    var k := Owner(groups, i);
    OwnerIff(groups, i, k);
    OwnerIff(groups, i, j);
    if i < Start(groups, j) {
      if k >= j {
        if k > j { StartBefore(groups, j, k); }
        assert false;
      }
    } else {
      var m := Owner(groups, i + c);
      OwnerIff(groups, i + c, k);
      if k < j { StartBefore(groups, k, j); }
    }
  }

  // ---------------------------------------------------------------- the names the editor offers

  /** `{f"{prefix}{index:02d}" for index in range(1, total + 1)}` */
  function OfferedNames(prefix: string, total: nat): (r: set<Id>)
    ensures forall id :: id in r <==> exists i: nat :: 1 <= i <= total && id == InstanceName(prefix, i)
  {
    set i: nat | 1 <= i <= total :: InstanceName(prefix, i)
  }

  /** The editor offers exactly the instances the resolver creates. */
  lemma OfferedAreCreated(prefix: string, groups: seq<Quota>, r: seq<Instance>)
    requires Numbered(prefix, groups, r)
    ensures OfferedNames(prefix, Total(groups)) == ToSet(InstanceNames(r))
  {
    var names := InstanceNames(r);
    forall id ensures id in OfferedNames(prefix, Total(groups)) <==> id in names {
      if i: nat :| 1 <= i <= Total(groups) && id == InstanceName(prefix, i) {
        assert names[i - 1] == id;
      }
      if id in names {
        var i :| 0 <= i < |names| && names[i] == id;
        assert id == InstanceName(prefix, i + 1);
      }
    }
  }
}
