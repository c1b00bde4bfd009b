/** Docker subnets: CIDR blocks in the sense of section 3.1 of RFC 4632. */
module Subnets {
  import opened Ordering
  import opened Model
  import opened Planner

  function Pow2(n: nat): (r: nat)
    ensures r > 0
  {
    if n == 0 then 1 else 2 * Pow2(n - 1)
  }

  lemma {:induction false} Pow2Adds(a: nat, b: nat)
    ensures Pow2(a + b) == Pow2(a) * Pow2(b)
  {
    if a > 0 {
      Pow2Adds(a - 1, b);
      assert Pow2(a + b) == 2 * Pow2(a - 1 + b);
    }
  }

  function Size(b: Block): nat
  {
    Pow2(32 - b.prefix)
  }

  ghost predicate ValidBlock(b: Block) {
    b.base + Size(b) <= Pow2(32)
  }

  predicate Contains(b: Block, address: nat)
  {
    b.base <= address < b.base + Size(b)
  }

  function Broadcast(b: Block): nat
  {
    b.base + Size(b) - 1
  }

  /** `ip_network.overlaps`: one end of one block lies in the other. */
  predicate Overlaps(a: Block, b: Block)
  {
    || Contains(b, a.base) || Contains(b, Broadcast(a))
    || Contains(a, b.base) || Contains(a, Broadcast(b))
  }

  /** The four end tests decide whether the two address sets meet. */
  lemma OverlapsMeansSharedAddress(a: Block, b: Block)
    ensures Overlaps(a, b) <==> exists x: nat :: Contains(a, x) && Contains(b, x)
  {
    if Overlaps(a, b) {
      var x := if Contains(b, a.base) then a.base else if Contains(b, Broadcast(a)) then Broadcast(a)
               else if Contains(a, b.base) then b.base else Broadcast(b);
      assert Contains(a, x) && Contains(b, x);
    }
  }

  /** How many subnets of length `prefix` a pool holds. */
  function Capacity(pool: Block, prefix: Prefix): nat
    requires pool.prefix <= prefix
  {
    Pow2(prefix - pool.prefix)
  }

  /** The k-th subnet of the pool in `pool.subnets(new_prefix=prefix)`. */
  function Subnet(pool: Block, prefix: Prefix, k: nat): Block
  {
    Block(pool.base + k * Pow2(32 - prefix), prefix)
  }

  lemma {:induction false} ProductGrows(j: nat, k: nat, size: nat)
    requires j < k
    ensures j * size + size <= k * size
  {
    if j + 1 < k {
      ProductGrows(j, k - 1, size);
      assert k * size == (k - 1) * size + size;
    } else {
      assert k * size == j * size + size;
    }
  }

  lemma SubnetInPool(pool: Block, prefix: Prefix, k: nat)
    requires ValidBlock(pool) && pool.prefix <= prefix && k < Capacity(pool, prefix)
    ensures ValidBlock(Subnet(pool, prefix, k))
    ensures pool.base <= Subnet(pool, prefix, k).base
    ensures Subnet(pool, prefix, k).base + Pow2(32 - prefix) <= pool.base + Size(pool)
  {
    PoolSize(pool, prefix);
    LastFits(pool.base, k, Capacity(pool, prefix), Pow2(32 - prefix), Size(pool));
  }

  lemma PoolSize(pool: Block, prefix: Prefix)
    requires pool.prefix <= prefix
    ensures Capacity(pool, prefix) * Pow2(32 - prefix) == Size(pool)
  {
    Pow2Adds(prefix - pool.prefix, 32 - prefix);
  }

  lemma LastFits(base: nat, k: nat, capacity: nat, size: nat, total: nat)
    requires k < capacity && capacity * size == total
    ensures base <= base + k * size && base + k * size + size <= base + total
  {
    ProductGrows(k, capacity, size);
  }

  lemma SubnetsDisjoint(pool: Block, prefix: Prefix, j: nat, k: nat)
    requires j != k
    ensures !Overlaps(Subnet(pool, prefix, j), Subnet(pool, prefix, k))
  {
    if j < k { ProductGrows(j, k, Pow2(32 - prefix)); } else { ProductGrows(k, j, Pow2(32 - prefix)); }
  }

  // ---------------------------------------------------------------- the allocation

  function MachineKey(m: Machine): Key { ByName(m.id) }

  /** Machines before position `i` that take their subnet from the pool. */
  function PoolUsers(ordered: seq<Machine>, i: nat): nat
    requires i <= |ordered|
  {
    if i == 0 then 0 else PoolUsers(ordered, i - 1) + (if ordered[i - 1].dockerSubnet.None? then 1 else 0)
  }

  /** The block the machine at position `i` asks for: its own, or the next of the pool. */
  function Request(ordered: seq<Machine>, pool: Block, prefix: Prefix, i: nat): Option<Block>
    requires i < |ordered| && pool.prefix <= prefix
  {
    if ordered[i].dockerSubnet.Some? then ordered[i].dockerSubnet
    else if PoolUsers(ordered, i) < Capacity(pool, prefix) then Some(Subnet(pool, prefix, PoolUsers(ordered, i)))
    else None
  }

  ghost predicate ValidRequests(machines: seq<Machine>, pool: Block, prefix: Prefix, networks: seq<Block>) {
    && ValidBlock(pool) && pool.prefix <= prefix
    && (forall m :: m in machines && m.dockerSubnet.Some? ==> ValidBlock(m.dockerSubnet.value))
    && forall n :: n in networks ==> ValidBlock(n)
  }

  /** Position `i` gets its request: available, off every declared network and off every earlier block. */
  ghost predicate Granted(ordered: seq<Machine>, pool: Block, prefix: Prefix, networks: seq<Block>, i: nat)
    requires i < |ordered| && pool.prefix <= prefix
  {
    && Request(ordered, pool, prefix, i).Some?
    && Clear(Request(ordered, pool, prefix, i).value, networks)
    && forall j :: 0 <= j < i ==> Apart(Request(ordered, pool, prefix, i), Request(ordered, pool, prefix, j))
  }

  ghost predicate Apart(a: Option<Block>, b: Option<Block>) {
    a.Some? && b.Some? ==> !Overlaps(a.value, b.value)
  }

  predicate Clear(b: Block, networks: seq<Block>) {
    forall n :: n in networks ==> !Overlaps(b, n)
  }

  predicate Free(b: Block, blocks: map<Id, Block>) {
    forall id :: id in blocks ==> !Overlaps(b, blocks[id])
  }

  ghost predicate Allocated(ordered: seq<Machine>, pool: Block, prefix: Prefix, blocks: map<Id, Block>, n: nat)
    requires n <= |ordered| && pool.prefix <= prefix
  {
    && (forall i :: 0 <= i < n ==>
          Request(ordered, pool, prefix, i).Some? && ordered[i].id in blocks
          && blocks[ordered[i].id] == Request(ordered, pool, prefix, i).value)
    && forall id :: id in blocks ==> exists i :: 0 <= i < n && ordered[i].id == id
  }

  lemma GrantedIff(ordered: seq<Machine>, pool: Block, prefix: Prefix, networks: seq<Block>, blocks: map<Id, Block>,
                   n: nat)
    requires n < |ordered| && pool.prefix <= prefix && Allocated(ordered, pool, prefix, blocks, n)
    ensures Granted(ordered, pool, prefix, networks, n) <==>
              && Request(ordered, pool, prefix, n).Some?
              && Clear(Request(ordered, pool, prefix, n).value, networks) &&
                  Free(Request(ordered, pool, prefix, n).value, blocks)
  {
    var request := Request(ordered, pool, prefix, n);
    if request.Some? && Free(request.value, blocks) {
      forall j | 0 <= j < n ensures Apart(request, Request(ordered, pool, prefix, j)) {
        assert ordered[j].id in blocks;
      }
    }
    if Granted(ordered, pool, prefix, networks, n) {
      forall id | id in blocks ensures !Overlaps(request.value, blocks[id]) {
        var j :| 0 <= j < n && ordered[j].id == id;
        assert Apart(request, Request(ordered, pool, prefix, j));
      }
    }
  }

  /** Give every machine its block in id order, or fail. */
  method AllocateDockerSubnets(machines: seq<Machine>, pool: Block, prefix: Prefix, networks: seq<Block>)
    returns (r: Result<map<Id, Block>>)
    requires UniqueMachines(machines) && ValidRequests(machines, pool, prefix, networks)
    ensures ValidRequests(SortBy(machines, MachineKey), pool, prefix, networks)
    ensures r.Ok? <==> forall i :: 0 <= i < |SortBy(machines, MachineKey)| ==>
                         Granted(SortBy(machines, MachineKey), pool, prefix, networks, i)
    ensures r.Ok? ==> Allocated(SortBy(machines, MachineKey), pool, prefix, r.value, |SortBy(machines, MachineKey)|)
  {
    var ordered := SortBy(machines, MachineKey);
    SortMembers(machines, MachineKey);
    OrderedMachines(machines);
    var blocks: map<Id, Block> := map[];
    var candidate := 0;
    for n := 0 to |ordered|
      invariant candidate == PoolUsers(ordered, n)
      invariant Allocated(ordered, pool, prefix, blocks, n)
      invariant forall i :: 0 <= i < n ==> Granted(ordered, pool, prefix, networks, i)
    {
      var machine := ordered[n];
      var block := machine.dockerSubnet;
      if block.None? {
        if candidate < Capacity(pool, prefix) { block := Some(Subnet(pool, prefix, candidate)); }
        candidate := candidate + 1;
      }
      assert block == Request(ordered, pool, prefix, n);
      GrantedIff(ordered, pool, prefix, networks, blocks, n);
      if block.None? || !Clear(block.value, networks) || !Free(block.value, blocks) {
        return Fail("invalid Docker subnet");
      }
      AllocatedMore(ordered, pool, prefix, blocks, n, block.value);
      blocks := blocks[machine.id := block.value];
    }
    return Ok(blocks);
  }

  lemma OrderedMachines(machines: seq<Machine>)
    requires UniqueMachines(machines)
    ensures UniqueMachines(SortBy(machines, MachineKey))
  {
    assert DistinctKeys(machines, MachineKey);
    SortDistinct(machines, MachineKey);
    var r := SortBy(machines, MachineKey);
    forall i, j | 0 <= i < j < |r| ensures r[i].id != r[j].id {
      assert MachineKey(r[i]) != MachineKey(r[j]);
    }
  }

  lemma RequestsValid(ordered: seq<Machine>, pool: Block, prefix: Prefix, networks: seq<Block>)
    requires ValidRequests(ordered, pool, prefix, networks)
    ensures forall i :: 0 <= i < |ordered| && Request(ordered, pool, prefix, i).Some? ==>
              ValidBlock(Request(ordered, pool, prefix, i).value)
  {
    forall i | 0 <= i < |ordered| && Request(ordered, pool, prefix, i).Some?
      ensures ValidBlock(Request(ordered, pool, prefix, i).value)
    {
      if ordered[i].dockerSubnet.None? { SubnetInPool(pool, prefix, PoolUsers(ordered, i)); }
      else { assert ordered[i] in ordered; }
    }
  }

  lemma AllocatedMore(ordered: seq<Machine>, pool: Block, prefix: Prefix, blocks: map<Id, Block>, n: nat, block: Block)
    requires UniqueMachines(ordered) && n < |ordered| && pool.prefix <= prefix
    requires Allocated(ordered, pool, prefix, blocks, n) && Request(ordered, pool, prefix, n) == Some(block)
    ensures Allocated(ordered, pool, prefix, blocks[ordered[n].id := block], n + 1)
    ensures ordered[n].id !in blocks
  {
    var after := blocks[ordered[n].id := block];
    forall id | id in after ensures exists i :: 0 <= i < n + 1 && ordered[i].id == id {
      if id in blocks { var i :| 0 <= i < n && ordered[i].id == id; }
    }
  }

  // ---------------------------------------------------------------- what the allocation guarantees

  /** A successful allocation covers every machine and honours explicit subnets. */
  lemma AllocationCovers(ordered: seq<Machine>, pool: Block, prefix: Prefix, networks: seq<Block>,
                         blocks: map<Id, Block>)
    requires UniqueMachines(ordered) && ValidRequests(ordered, pool, prefix, networks)
    requires Allocated(ordered, pool, prefix, blocks, |ordered|)
    ensures blocks.Keys == set m | m in ordered :: m.id
    ensures forall id :: id in blocks ==> ValidBlock(blocks[id])
    ensures forall m :: m in ordered && m.dockerSubnet.Some? ==> m.id in blocks && blocks[m.id] == m.dockerSubnet.value
  {
    RequestsValid(ordered, pool, prefix, networks);
    forall m | m in ordered ensures m.id in blocks && (m.dockerSubnet.Some? ==> blocks[m.id] == m.dockerSubnet.value) {
      var i :| 0 <= i < |ordered| && ordered[i] == m;
    }
    forall id | id in blocks ensures id in (set m | m in ordered :: m.id) && ValidBlock(blocks[id]) {
      var i :| 0 <= i < |ordered| && ordered[i].id == id;
      assert ordered[i] in ordered;
    }
  }

  /** Blocks of different machines share no address... */
  lemma AllocatedBlocksDisjoint(ordered: seq<Machine>, pool: Block, prefix: Prefix, networks: seq<Block>,
                                blocks: map<Id, Block>, a: Id, b: Id, x: nat)
    requires pool.prefix <= prefix && forall i :: 0 <= i < |ordered| ==> Granted(ordered, pool, prefix, networks, i)
    requires Allocated(ordered, pool, prefix, blocks, |ordered|)
    requires a in blocks && b in blocks && a != b && Contains(blocks[a], x)
    ensures !Contains(blocks[b], x)
  {
    var i :| 0 <= i < |ordered| && ordered[i].id == a;
    var j :| 0 <= j < |ordered| && ordered[j].id == b;
    OverlapsMeansSharedAddress(blocks[a], blocks[b]);
    assert i < j ==>
        Granted(ordered, pool, prefix, networks, j) &&
        Apart(Request(ordered, pool, prefix, j), Request(ordered, pool, prefix, i));
    assert j < i ==>
        Granted(ordered, pool, prefix, networks, i) &&
        Apart(Request(ordered, pool, prefix, i), Request(ordered, pool, prefix, j));
  }

  /** ...and none with a declared network. */
  lemma AllocatedBlocksOffNetworks(ordered: seq<Machine>, pool: Block, prefix: Prefix, networks: seq<Block>,
                                   blocks: map<Id, Block>, a: Id, n: Block, x: nat)
    requires pool.prefix <= prefix && forall i :: 0 <= i < |ordered| ==> Granted(ordered, pool, prefix, networks, i)
    requires Allocated(ordered, pool, prefix, blocks, |ordered|)
    requires a in blocks && n in networks && Contains(blocks[a], x)
    ensures !Contains(n, x)
  {
    var i :| 0 <= i < |ordered| && ordered[i].id == a;
    assert Granted(ordered, pool, prefix, networks, i);
    OverlapsMeansSharedAddress(blocks[a], n);
  }

  lemma {:induction false} AllFromPool(ordered: seq<Machine>, i: nat)
    requires i <= |ordered| && forall m :: m in ordered ==> m.dockerSubnet.None?
    ensures PoolUsers(ordered, i) == i
  {
    if i > 0 { AllFromPool(ordered, i - 1); assert ordered[i - 1] in ordered; }
  }

  /**
   * Exact capacity: without explicit subnets and with a pool that meets no network, allocation
   * succeeds iff there are at most 2^(prefix - pool prefix) machines, and the k-th machine by id
   * then gets the k-th block of the pool.
   */
  lemma ExactCapacity(ordered: seq<Machine>, pool: Block, prefix: Prefix, networks: seq<Block>)
    requires ValidRequests(ordered, pool, prefix, networks)
    requires forall m :: m in ordered ==> m.dockerSubnet.None?
    requires forall n, x: nat :: n in networks && Contains(pool, x) ==> !Contains(n, x)
    ensures (forall i :: 0 <= i < |ordered| ==> Granted(ordered, pool, prefix, networks, i))
              <==> |ordered| <= Pow2(prefix - pool.prefix)
    ensures |ordered| <= Pow2(prefix - pool.prefix) ==> forall i :: 0 <= i < |ordered| ==>
              Request(ordered, pool, prefix, i) == Some(Block(pool.base + i * Pow2(32 - prefix), prefix))
  {
    if |ordered| <= Capacity(pool, prefix) {
      forall i | 0 <= i < |ordered|
        ensures Request(ordered, pool, prefix, i) == Some(Subnet(pool, prefix, i)) &&
                Granted(ordered, pool, prefix, networks, i)
      {
        PoolGrants(ordered, pool, prefix, networks, i);
      }
    } else {
      var i := Capacity(pool, prefix);
      AllFromPool(ordered, i);
      assert ordered[i] in ordered && Request(ordered, pool, prefix, i).None?;
      assert !Granted(ordered, pool, prefix, networks, i);
    }
  }

  /** A block of the pool meets nothing the pool does not meet. */
  lemma PoolBlockIsClear(pool: Block, prefix: Prefix, networks: seq<Block>, k: nat)
    requires ValidBlock(pool) && pool.prefix <= prefix && k < Capacity(pool, prefix)
    requires forall n, x: nat :: n in networks && Contains(pool, x) ==> !Contains(n, x)
    ensures Clear(Subnet(pool, prefix, k), networks)
  {
    var b := Subnet(pool, prefix, k);
    SubnetInPool(pool, prefix, k);
    forall n | n in networks ensures !Overlaps(b, n) {
      OverlapsMeansSharedAddress(b, n);
      forall x: nat | Contains(b, x) ensures !Contains(n, x) { assert Contains(pool, x); }
    }
  }

  lemma RequestFromPool(ordered: seq<Machine>, pool: Block, prefix: Prefix, i: nat)
    requires pool.prefix <= prefix && i < |ordered| && i < Capacity(pool, prefix) && PoolUsers(ordered, i) == i
    requires forall m :: m in ordered ==> m.dockerSubnet.None?
    ensures Request(ordered, pool, prefix, i) == Some(Subnet(pool, prefix, i))
  {
    assert ordered[i] in ordered;
  }

  lemma PoolGrants(ordered: seq<Machine>, pool: Block, prefix: Prefix, networks: seq<Block>, i: nat)
    requires ValidRequests(ordered, pool, prefix, networks) && i < |ordered| <= Capacity(pool, prefix)
    requires forall m :: m in ordered ==> m.dockerSubnet.None?
    requires forall n, x: nat :: n in networks && Contains(pool, x) ==> !Contains(n, x)
    ensures Request(ordered, pool, prefix, i) == Some(Subnet(pool, prefix, i)) &&
            Granted(ordered, pool, prefix, networks, i)
  {
    AllFromPool(ordered, i);
    RequestFromPool(ordered, pool, prefix, i);
    PoolBlockIsClear(pool, prefix, networks, i);
    forall j | 0 <= j < i ensures Apart(Request(ordered, pool, prefix, i), Request(ordered, pool, prefix, j)) {
      AllFromPool(ordered, j);
      RequestFromPool(ordered, pool, prefix, j);
      SubnetsDisjoint(pool, prefix, i, j);
    }
  }

  // ---------------------------------------------------------------- which machine gets which block

  /** The machines without a subnet of their own whose id comes earlier in the alphabet. */
  ghost function EarlierUsers(machines: seq<Machine>, m: Machine): set<Machine> {
    set x | x in machines && x.dockerSubnet == None && x.id != m.id && Alphabetical(x.id.text, m.id.text)
  }

  lemma {:induction false} PoolUsersAre(ordered: seq<Machine>, i: nat)
    requires UniqueMachines(ordered) && i <= |ordered|
    ensures PoolUsers(ordered, i) == |set x | x in ordered[..i] && x.dockerSubnet == None|
  {
    if i > 0 {
      PoolUsersAre(ordered, i - 1);
      UsersMore(ordered, i - 1);
    }
  }

  lemma UsersMore(ordered: seq<Machine>, i: nat)
    requires UniqueMachines(ordered) && i < |ordered|
    ensures |set x | x in ordered[..i + 1] && x.dockerSubnet == None|
            == |set x | x in ordered[..i] && x.dockerSubnet == None| + if ordered[i].dockerSubnet == None then 1 else 0
  {
    var before := set x | x in ordered[..i] && x.dockerSubnet == None;
    assert ordered[..i + 1] == ordered[..i] + [ordered[i]];
    assert ordered[i] !in ordered[..i];
    assert (set x | x in ordered[..i + 1] && x.dockerSubnet == None)
        == before + if ordered[i].dockerSubnet == None then {ordered[i]} else {};
  }

  /** A declared subnet is kept; every other machine takes the block after those of the earlier machines without one. */
  lemma BlockByRank(machines: seq<Machine>, pool: Block, prefix: Prefix, blocks: map<Id, Block>, m: Machine)
    requires UniqueMachines(machines) && pool.prefix <= prefix && m in machines
    requires Allocated(SortBy(machines, MachineKey), pool, prefix, blocks, |SortBy(machines, MachineKey)|)
    ensures m.id in blocks
    ensures m.dockerSubnet.Some? ==> blocks[m.id] == m.dockerSubnet.value
    ensures m.dockerSubnet.None? ==>
      blocks[m.id].prefix == prefix && blocks[m.id].base == pool.base + |EarlierUsers(machines, m)| * Pow2(32 - prefix)
  {
    var i := PlaceOf(machines, m);
    OrderedMachines(machines);
    EarlierUsersAre(machines, m, i);
    BlockInTurn(SortBy(machines, MachineKey), pool, prefix, blocks, i, EarlierUsers(machines, m));
    SubnetMeans(pool, prefix, |EarlierUsers(machines, m)|);
  }

  lemma PlaceOf(machines: seq<Machine>, m: Machine) returns (i: nat)
    requires m in machines
    ensures i < |SortBy(machines, MachineKey)| && SortBy(machines, MachineKey)[i] == m
  {
    SortMembers(machines, MachineKey);
    assert m in SortBy(machines, MachineKey);
    i :| 0 <= i < |SortBy(machines, MachineKey)| && SortBy(machines, MachineKey)[i] == m;
  }

  lemma BlockInTurn(ordered: seq<Machine>, pool: Block, prefix: Prefix, blocks: map<Id, Block>, i: nat,
                    users: set<Machine>)
    requires UniqueMachines(ordered) && pool.prefix <= prefix && i < |ordered|
    requires Allocated(ordered, pool, prefix, blocks, |ordered|)
    requires users == set x | x in ordered[..i] && x.dockerSubnet == None
    ensures ordered[i].id in blocks
    ensures ordered[i].dockerSubnet.Some? ==> blocks[ordered[i].id] == ordered[i].dockerSubnet.value
    ensures ordered[i].dockerSubnet.None? ==> blocks[ordered[i].id] == Subnet(pool, prefix, |users|)
  {
    PoolUsersAre(ordered, i);
  }

  lemma SubnetMeans(pool: Block, prefix: Prefix, k: nat)
    ensures Subnet(pool, prefix, k).prefix == prefix
    ensures Subnet(pool, prefix, k).base == pool.base + k * Pow2(32 - prefix)
  {
  }

  lemma EarlierUsersAre(machines: seq<Machine>, m: Machine, i: nat)
    requires UniqueMachines(machines) && i < |SortBy(machines, MachineKey)| && SortBy(machines, MachineKey)[i] == m
    ensures EarlierUsers(machines, m) == set x | x in SortBy(machines, MachineKey)[..i] && x.dockerSubnet == None
  {
    var ordered := SortBy(machines, MachineKey);
    SortMembers(machines, MachineKey);
    SortSorts(machines, MachineKey);
    assert DistinctKeys(machines, MachineKey);
    SortDistinct(machines, MachineKey);
    PrefixMeans(ordered, MachineKey, i);
    forall x: Machine ensures ComesBefore(x, m, MachineKey) <==> x.id != m.id && Alphabetical(x.id.text, m.id.text) {
      StrLeIff(x.id.text, m.id.text);
    }
  }
}
