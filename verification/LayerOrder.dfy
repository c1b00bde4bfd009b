/** What the scheduler computes: a sort by phase, same-phase depth and name. */
module LayerOrder {
  import opened Ordering
  import opened Model
  import opened Inventory
  import opened Planner

  /** Connections go down in rank and never to a later phase: what the contracts guarantee. */
  ghost predicate Descends(g: map<Id, Service>) {
    forall id, d {:trigger d in Deps(g[id])} :: id in g && d in Deps(g[id]) ==>
      d in g && Rank(g[d].kind) < Rank(g[id].kind) && PhaseOf(g[d].kind) <= PhaseOf(g[id].kind)
  }

  lemma ContractedDescends(services: seq<Service>)
    requires Contracted(services)
    ensures Descends(ById(services))
  {
    var g := ById(services);
    forall id, d {:trigger d in Deps(g[id])} | id in g && d in Deps(g[id])
      ensures d in g && Rank(g[d].kind) < Rank(g[id].kind) && PhaseOf(g[d].kind) <= PhaseOf(g[id].kind)
    {
      var c :| c in g[id].connections && c.service == d;
      ContractsDescend(services, g[id], c);
    }
  }

  // ---------------------------------------------------------------- depth

  ghost predicate SamePhase(g: map<Id, Service>, a: Id, b: Id) {
    a in g && b in g && PhaseOf(g[a].kind) == PhaseOf(g[b].kind)
  }

  /** A chain of dependencies inside one phase, most dependent service first. */
  ghost predicate Chain(g: map<Id, Service>, p: seq<Id>) {
    p != [] && Walk(g, p) && forall i :: 0 <= i < |p| ==> SamePhase(g, p[0], p[i])
  }

  /** Length in connections of the longest same-phase dependency chain that starts at `id`. */
  ghost function Depth(g: map<Id, Service>, id: Id): nat
    requires Descends(g) && id in g
    decreases Rank(g[id].kind), |g[id].connections| + 1
  {
    DepthOver(g, id, |g[id].connections|)
  }

  ghost function DepthOver(g: map<Id, Service>, id: Id, n: nat): nat
    requires Descends(g) && id in g && n <= |g[id].connections|
    decreases Rank(g[id].kind), n
  {
    if n == 0 then 0
    else
      var d := g[id].connections[n - 1].service;
      assert d in Deps(g[id]);
      var rest := DepthOver(g, id, n - 1);
      if SamePhase(g, id, d) && Depth(g, d) + 1 > rest then Depth(g, d) + 1 else rest
  }

  lemma {:induction false} DepthOverBounds(g: map<Id, Service>, id: Id, n: nat)
    requires Descends(g) && id in g && n <= |g[id].connections|
    ensures forall i :: 0 <= i < n && SamePhase(g, id, g[id].connections[i].service) ==>
              Depth(g, g[id].connections[i].service) < DepthOver(g, id, n)
    ensures DepthOver(g, id, n) > 0 ==>
              exists i :: 0 <= i < n && SamePhase(g, id, g[id].connections[i].service)
                          && Depth(g, g[id].connections[i].service) + 1 == DepthOver(g, id, n)
  {
    if n > 0 {
      DepthOverBounds(g, id, n - 1);
      assert g[id].connections[n - 1].service in Deps(g[id]);
    }
  }

  /** Same-phase providers are shallower, and some provider accounts for the depth. */
  lemma DepthBounds(g: map<Id, Service>, id: Id)
    requires Descends(g) && id in g
    ensures forall d :: d in Deps(g[id]) && SamePhase(g, id, d) ==> Depth(g, d) < Depth(g, id)
    ensures Depth(g, id) > 0 ==> exists d :: d in Deps(g[id]) && SamePhase(g, id, d) && Depth(g, d) + 1 == Depth(g, id)
  {
    var cs := g[id].connections;
    DepthOverBounds(g, id, |cs|);
    forall d | d in Deps(g[id]) && SamePhase(g, id, d) ensures Depth(g, d) < Depth(g, id) {
      var c :| c in cs && c.service == d;
      var i :| 0 <= i < |cs| && cs[i] == c;
      assert SamePhase(g, id, cs[i].service);
    }
    if Depth(g, id) > 0 {
      var i :| 0 <= i < |cs| && SamePhase(g, id, cs[i].service) &&
          Depth(g, cs[i].service) + 1 == DepthOver(g, id, |cs|);
      assert cs[i].service in Deps(g[id]);
    }
  }

  /** No chain from `id` is longer than its depth... */
  lemma {:induction false} ChainsFitDepth(g: map<Id, Service>, p: seq<Id>)
    requires Descends(g) && Chain(g, p)
    ensures |p| - 1 <= Depth(g, p[0])
  {
    if |p| > 1 {
      var q := p[1..];
      forall k | 0 <= k < |q| - 1 ensures q[k + 1] in Deps(g[q[k]]) {
        assert q[k] == p[k + 1] && q[k + 1] == p[k + 2];
      }
      ChainsFitDepth(g, q);
      DepthBounds(g, p[0]);
      assert p[1] in Deps(g[p[0]]) && SamePhase(g, p[0], p[1]);
    }
  }

  /** ...and one chain attains it. */
  lemma {:induction false} DepthIsAttained(g: map<Id, Service>, id: Id) returns (p: seq<Id>)
    requires Descends(g) && id in g
    ensures Chain(g, p) && p[0] == id && |p| - 1 == Depth(g, id)
    decreases Rank(g[id].kind)
  {
    if Depth(g, id) == 0 {
      p := [id];
    } else {
      DepthBounds(g, id);
      var d :| d in Deps(g[id]) && SamePhase(g, id, d) && Depth(g, d) + 1 == Depth(g, id);
      var q := DepthIsAttained(g, d);
      p := [id] + q;
      forall k | 0 <= k < |p| - 1 ensures p[k + 1] in Deps(g[p[k]]) {
        if k > 0 { assert p[k] == q[k - 1] && p[k + 1] == q[k]; }
      }
    }
  }

  // ---------------------------------------------------------------- bands

  /** The sort key of a service. */
  ghost function KeyOf(g: map<Id, Service>, id: Id): Key
    requires Descends(g)
  {
    if id in g then Key(PhaseOf(g[id].kind), Depth(g, id), id) else Key(0, 0, id)
  }

  ghost predicate BandLt(g: map<Id, Service>, a: Id, b: Id)
    requires Descends(g)
  {
    KeyOf(g, a).major < KeyOf(g, b).major
    || (KeyOf(g, a).major == KeyOf(g, b).major && KeyOf(g, a).minor < KeyOf(g, b).minor)
  }

  ghost predicate SameBand(g: map<Id, Service>, a: Id, b: Id)
    requires Descends(g)
  {
    KeyOf(g, a).major == KeyOf(g, b).major && KeyOf(g, a).minor == KeyOf(g, b).minor
  }

  /** `resolved` holds every service of each band it touches, and all earlier bands. */
  ghost predicate BandClosed(g: map<Id, Service>, resolved: set<Id>)
    requires Descends(g)
  {
    forall a, b {:trigger BandLt(g, a, b)} :: a in resolved && a in g && b in g && !BandLt(g, a, b) ==> b in resolved
  }

  lemma {:induction false} LowestBand(g: map<Id, Service>, ids: set<Id>) returns (low: Id)
    requires Descends(g) && ids != {} && ids <= g.Keys
    ensures low in ids && forall b :: b in ids ==> !BandLt(g, b, low)
    decreases ids
  {
    var x :| x in ids;
    if ids == {x} {
      low := x;
    } else {
      low := LowestBand(g, ids - {x});
      if BandLt(g, x, low) { low := x; }
      assert forall b :: b in ids ==> b == x || b in ids - {x};
    }
  }

  lemma LowestIsCandidate(g: map<Id, Service>, resolved: set<Id>, low: Id)
    requires Descends(g) && low in g && low !in resolved
    requires forall b :: b in g && b !in resolved ==> !BandLt(g, b, low)
    ensures low in Candidates(g, resolved)
  {
    forall d | d in Deps(g[low]) ensures d in resolved {
      DepthBounds(g, low);
      assert BandLt(g, d, low);
    }
  }

  /** Candidates of the lowest pending phase cannot be deeper than the lowest pending band. */
  lemma CandidateIsShallow(g: map<Id, Service>, resolved: set<Id>, low: Id, b: Id)
    requires Descends(g) && BandClosed(g, resolved) && low in g
    requires b in Candidates(g, resolved) && SamePhase(g, low, b)
    ensures low in resolved || Depth(g, b) <= Depth(g, low)
  {
    if Depth(g, b) > Depth(g, low) {
      DepthBounds(g, b);
      var d :| d in Deps(g[b]) && SamePhase(g, b, d) && Depth(g, d) + 1 == Depth(g, b);
      assert d in resolved && !BandLt(g, d, low);
    }
  }

  /** The greedy choice is exactly the lowest pending band. */
  lemma ReadyIsLowestBand(g: map<Id, Service>, resolved: set<Id>) returns (low: Id)
    requires Descends(g) && BandClosed(g, resolved) && resolved < g.Keys
    ensures low in Ready(g, resolved)
    ensures forall b :: b in g && b !in resolved ==> !BandLt(g, b, low)
    ensures forall b :: b in Ready(g, resolved) <==> b in g && b !in resolved && SameBand(g, low, b)
  {
    var x :| x in g && x !in resolved;
    assert x in g.Keys - resolved;
    low := LowestBand(g, g.Keys - resolved);
    LowestIsCandidate(g, resolved, low);
    forall b ensures b in Ready(g, resolved) <==> b in g && b !in resolved && SameBand(g, low, b) {
      if b in Ready(g, resolved) {
        assert PhaseOf(g[b].kind) <= PhaseOf(g[low].kind);
        assert !BandLt(g, b, low);
        CandidateIsShallow(g, resolved, low, b);
      }
      if b in g && b !in resolved && SameBand(g, low, b) {
        LowestIsCandidate(g, resolved, b);
        forall other | other in Candidates(g, resolved) ensures PhaseOf(g[b].kind) <= PhaseOf(g[other].kind) {
          assert !BandLt(g, other, low);
        }
      }
    }
  }

  lemma BandStaysClosed(g: map<Id, Service>, layers: seq<seq<Id>>, i: nat)
    requires Descends(g) && Layered(g, layers) && i < |layers|
    requires BandClosed(g, Before(layers, i))
    ensures BandClosed(g, Before(layers, i + 1))
    ensures forall a, b {:trigger SameBand(g, a, b)} :: a in ToSet(layers[i]) && b in ToSet(layers[i]) ==>
            SameBand(g, a, b)
    ensures forall a, b {:trigger BandLt(g, a, b)} ::
              a in ToSet(layers[i]) && b in g && b !in Before(layers, i + 1) ==> BandLt(g, a, b)
  {
    var resolved := Before(layers, i);
    BeforeStep(layers, i);
    assert IsLayer(g, layers[i], resolved);
    assert layers[i][0] in ToSet(layers[i]);
    assert resolved <= g.Keys by {
      forall x | x in resolved ensures x in g {
        var j := LayerOf(g, layers, x, i);
      }
    }
    var low := ReadyIsLowestBand(g, resolved);
  }

  lemma {:induction false} BandsStayClosed(g: map<Id, Service>, layers: seq<seq<Id>>, i: nat)
    requires Descends(g) && Layered(g, layers) && i <= |layers|
    ensures BandClosed(g, Before(layers, i))
  {
    if i > 0 {
      BandsStayClosed(g, layers, i - 1);
      BandStaysClosed(g, layers, i - 1);
    }
  }

  /** One layer per band, in ascending band order. */
  lemma OneLayerPerBand(services: seq<Service>, layers: seq<seq<Id>>, i: nat, j: nat, a: Id, b: Id)
    requires Contracted(services) && Layering(ById(services), layers)
    requires i < |layers| && j < |layers| && a in ToSet(layers[i]) && b in ToSet(layers[j])
    ensures Descends(ById(services))
    ensures i == j <==> SameBand(ById(services), a, b)
    ensures i < j <==> BandLt(ById(services), a, b)
  {
    ContractedDescends(services);
    var g := ById(services);
    if i == j { SameLayerSameBand(g, layers, i, a, b); }
    else if i < j { LaterLayerLaterBand(g, layers, i, j, a, b); }
    else { LaterLayerLaterBand(g, layers, j, i, b, a); }
  }

  lemma SameLayerSameBand(g: map<Id, Service>, layers: seq<seq<Id>>, i: nat, a: Id, b: Id)
    requires Descends(g) && Layered(g, layers)
    requires i < |layers| && a in ToSet(layers[i]) && b in ToSet(layers[i])
    ensures SameBand(g, a, b)
  {
    BandsStayClosed(g, layers, i);
    BandStaysClosed(g, layers, i);
  }

  lemma LaterLayerLaterBand(g: map<Id, Service>, layers: seq<seq<Id>>, i: nat, j: nat, a: Id, b: Id)
    requires Descends(g) && Layered(g, layers)
    requires i < j < |layers| && a in ToSet(layers[i]) && b in ToSet(layers[j])
    ensures BandLt(g, a, b)
  {
    BandsStayClosed(g, layers, i);
    BandStaysClosed(g, layers, i);
    PlacedOnce(g, layers, i, j, b);
  }

  lemma PlacedOnce(g: map<Id, Service>, layers: seq<seq<Id>>, i: nat, j: nat, b: Id)
    requires Layered(g, layers) && i < j < |layers| && b in ToSet(layers[j])
    ensures b in g && b !in Before(layers, i + 1)
  {
    LayerMembers(g, layers[j], Before(layers, j));
    BeforeGrows(layers, i + 1, j);
  }

  // ---------------------------------------------------------------- the sort

  lemma LaterComesLater(g: map<Id, Service>, layers: seq<seq<Id>>, n: nat, x: Id, y: Id)
    requires Descends(g) && Layered(g, layers) && n < |layers|
    requires x in Before(layers, n) && y in ToSet(layers[n])
    ensures KeyLe(KeyOf(g, x), KeyOf(g, y)) && x != y
  {
    var k := LayerOf(g, layers, x, n);
    LaterLayerLaterBand(g, layers, k, n, x, y);
  }

  ghost predicate Ascending(g: map<Id, Service>, s: seq<Id>)
    requires Descends(g)
  {
    forall i, j :: 0 <= i < j < |s| ==> KeyLe(KeyOf(g, s[i]), KeyOf(g, s[j])) && s[i] != s[j]
  }

  lemma LayerAscends(g: map<Id, Service>, layers: seq<seq<Id>>, n: nat)
    requires Descends(g) && Layered(g, layers) && n < |layers|
    ensures Ascending(g, layers[n])
  {
    var layer := layers[n];
    assert IsLayer(g, layer, Before(layers, n));
    LayerMembers(g, layer, Before(layers, n));
    forall i, j | 0 <= i < j < |layer| ensures KeyLe(KeyOf(g, layer[i]), KeyOf(g, layer[j])) && layer[i] != layer[j] {
      assert layer[i] in ToSet(layer) && layer[j] in ToSet(layer);
      SameLayerSameBand(g, layers, n, layer[i], layer[j]);
      assert KeyLe(ByName(layer[i]), ByName(layer[j]));
    }
  }

  lemma {:induction false} FlattenAscends(g: map<Id, Service>, layers: seq<seq<Id>>, n: nat)
    requires Descends(g) && Layered(g, layers) && n <= |layers|
    ensures Ascending(g, Flatten(layers[..n]))
  {
    if n > 0 {
      FlattenAscends(g, layers, n - 1);
      var front, last := Flatten(layers[..n - 1]), layers[n - 1];
      assert layers[..n] == layers[..n - 1] + [last];
      FlattenSnoc(layers[..n - 1], last);
      LayerAscends(g, layers, n - 1);
      forall x, y | x in front && y in last ensures KeyLe(KeyOf(g, x), KeyOf(g, y)) && x != y {
        assert x in Before(layers, n - 1) && y in ToSet(last);
        LaterComesLater(g, layers, n - 1, x, y);
      }
      AscendingAppend(g, front, last);
    }
  }

  lemma AscendingAppend(g: map<Id, Service>, front: seq<Id>, last: seq<Id>)
    requires Descends(g) && Ascending(g, front) && Ascending(g, last)
    requires forall x, y :: x in front && y in last ==> KeyLe(KeyOf(g, x), KeyOf(g, y)) && x != y
    ensures Ascending(g, front + last)
  {
    var all := front + last;
    forall i, j | 0 <= i < j < |all| ensures KeyLe(KeyOf(g, all[i]), KeyOf(g, all[j])) && all[i] != all[j] {
      if i < |front| <= j { assert all[i] in front && all[j] in last; }
    }
  }

  /**
   * The main result about the loop: for every contracted inventory and every listing order of its
   * services, concatenating the layers gives the services sorted by (phase, same-phase depth, id).
   */
  lemma LayersAreASort(services: seq<Service>, layers: seq<seq<Id>>, listing: seq<Id>)
    requires Contracted(services) && Layering(ById(services), layers)
    requires NoRepeats(listing) && ToSet(listing) == ById(services).Keys
    ensures Descends(ById(services))
    ensures Flatten(layers) == SortBy(listing, (id: Id) => KeyOf(ById(services), id))
  {
    ContractedDescends(services);
    var g := ById(services);
    FlattenAscends(g, layers, |layers|);
    assert layers[..|layers|] == layers;
    assert ToSet(Flatten(layers)) == ToSet(listing);
    AscendingIsSort(g, Flatten(layers), listing);
  }

  lemma AscendingIsSort(g: map<Id, Service>, s: seq<Id>, listing: seq<Id>)
    requires Descends(g) && Ascending(g, s) && ToSet(s) == ToSet(listing) == g.Keys && NoRepeats(listing)
    ensures s == SortBy(listing, (id: Id) => KeyOf(g, id))
  {
    var key := (id: Id) => KeyOf(g, id);
    SortSorts(listing, key);
    SortMembers(listing, key);
    assert forall id :: id in s <==> id in ToSet(s);
    assert forall id :: id in listing <==> id in ToSet(listing);
    assert DistinctKeys(listing, key);
    SortDistinct(listing, key);
    SortedUnique(s, SortBy(listing, key), key);
  }

  /** The listing order of services never changes the layers. */
  lemma {:induction false} LayeringIsUnique(g: map<Id, Service>, a: seq<seq<Id>>, b: seq<seq<Id>>)
    requires Layering(g, a) && Layering(g, b)
    ensures a == b
  {
    if |a| <= |b| { PrefixesAgree(g, a, b, |a|); OverfullIsEmpty(g, a, b); }
    else { PrefixesAgree(g, b, a, |b|); OverfullIsEmpty(g, b, a); }
  }

  lemma {:induction false} PrefixesAgree(g: map<Id, Service>, a: seq<seq<Id>>, b: seq<seq<Id>>, n: nat)
    requires Layered(g, a) && Layered(g, b) && n <= |a| && n <= |b|
    ensures a[..n] == b[..n]
  {
    if n > 0 {
      PrefixesAgree(g, a, b, n - 1);
      assert IsLayer(g, a[n - 1], Before(a, n - 1)) && IsLayer(g, b[n - 1], Before(b, n - 1));
      SameLayer(g, a[n - 1], b[n - 1], Before(a, n - 1));
      assert a[..n] == a[..n - 1] + [a[n - 1]] && b[..n] == b[..n - 1] + [b[n - 1]];
    }
  }

  lemma SameLayer(g: map<Id, Service>, x: seq<Id>, y: seq<Id>, resolved: set<Id>)
    requires IsLayer(g, x, resolved) && IsLayer(g, y, resolved)
    ensures x == y
  {
    assert forall id :: id in x <==> id in ToSet(x);
    assert forall id :: id in y <==> id in ToSet(y);
    SortedUnique(x, y, ByName);
  }

  lemma OverfullIsEmpty(g: map<Id, Service>, a: seq<seq<Id>>, b: seq<seq<Id>>)
    requires Layering(g, a) && Layering(g, b) && |a| <= |b| && a[..|a|] == b[..|a|]
    ensures a == b
  {
    if |a| < |b| {
      LayerMembers(g, b[|a|], Before(b, |a|));
    }
  }
}
