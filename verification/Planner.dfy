/** The phase-prioritised scheduler and the sort it refines. */
module Planner {
  import opened Ordering
  import opened Model
  import opened Inventory

  // ---------------------------------------------------------------- what one layer is

  /** Services whose providers have all been scheduled. */
  ghost function Candidates(g: map<Id, Service>, resolved: set<Id>): set<Id> {
    set id | id in g && id !in resolved && Deps(g[id]) <= resolved
  }

  /** The candidates of the earliest phase. */
  ghost function Ready(g: map<Id, Service>, resolved: set<Id>): set<Id> {
    set id | id in Candidates(g, resolved)
      && forall other :: other in Candidates(g, resolved) ==> PhaseOf(g[id].kind) <= PhaseOf(g[other].kind)
  }

  function ByName(id: Id): Key { Key(0, 0, id) }

  /** Everything scheduled before layer `i`. */
  ghost function Before(layers: seq<seq<Id>>, i: nat): set<Id>
    requires i <= |layers|
  {
    ToSet(Flatten(layers[..i]))
  }

  lemma BeforeStep(layers: seq<seq<Id>>, i: nat)
    requires i < |layers|
    ensures Before(layers, i + 1) == Before(layers, i) + ToSet(layers[i])
  {
    assert layers[..i + 1] == layers[..i] + [layers[i]];
    FlattenSnoc(layers[..i], layers[i]);
  }

  ghost predicate IsLayer(g: map<Id, Service>, layer: seq<Id>, resolved: set<Id>) {
    layer != [] && ToSet(layer) == Ready(g, resolved) && Sorted(layer, ByName) && NoRepeats(layer)
  }

  /** Each layer is the sorted ready set of its moment. */
  ghost predicate Layered(g: map<Id, Service>, layers: seq<seq<Id>>) {
    forall i :: 0 <= i < |layers| ==> IsLayer(g, layers[i], Before(layers, i))
  }

  ghost predicate Layering(g: map<Id, Service>, layers: seq<seq<Id>>) {
    Layered(g, layers) && Before(layers, |layers|) == g.Keys
  }

  // ---------------------------------------------------------------- the scheduler

  function FilterIds(ids: seq<Id>, keep: set<Id>): (r: seq<Id>)
    ensures forall x :: x in r <==> x in ids && x in keep
    ensures NoRepeats(ids) ==> NoRepeats(r)
  {
    if ids == [] then []
    else
      var rest := FilterIds(ids[1..], keep);
      assert forall x :: x in ids <==> x == ids[0] || x in ids[1..];
      if ids[0] in keep then [ids[0]] + rest else rest
  }

  function EarliestPhase(g: map<Id, Service>, ids: seq<Id>): (r: nat)
    requires ids != [] && forall id :: id in ids ==> id in g
    ensures forall id :: id in ids ==> r <= PhaseOf(g[id].kind)
    ensures exists id :: id in ids && r == PhaseOf(g[id].kind)
  {
    var here := PhaseOf(g[ids[0]].kind);
    assert forall x :: x in ids <==> x == ids[0] || x in ids[1..];
    assert ids[0] in ids;
    if |ids| == 1 then here
    else
      var rest := EarliestPhase(g, ids[1..]);
      if here <= rest then here else rest
  }

  lemma SortedNames(ids: seq<Id>)
    requires NoRepeats(ids)
    ensures Sorted(SortBy(ids, ByName), ByName) && NoRepeats(SortBy(ids, ByName))
    ensures ToSet(SortBy(ids, ByName)) == ToSet(ids) && |SortBy(ids, ByName)| == |ids|
  {
    assert DistinctKeys(ids, ByName);
    SortSorts(ids, ByName);
    SortDistinct(ids, ByName);
    SortMembers(ids, ByName);
    var r := SortBy(ids, ByName);
    forall i, j | 0 <= i < j < |r| ensures r[i] != r[j] {
      assert ByName(r[i]) != ByName(r[j]);
    }
  }

  /** When nothing is ready although something is pending, a provider is missing or there is a cycle. */
  lemma NothingReady(g: map<Id, Service>, resolved: set<Id>)
    requires Pending(g, resolved) != map[] && Candidates(g, resolved) == {}
    ensures !(Closed(g) && Acyclic(g))
  {
    var start :| start in Pending(g, resolved).Keys;
    StuckFrom(g, resolved, start);
  }

  lemma StuckFrom(g: map<Id, Service>, resolved: set<Id>, start: Id)
    requires start in g && start !in resolved && Candidates(g, resolved) == {}
    ensures !(Closed(g) && Acyclic(g))
  {
    if Closed(g) {
      var stuck := g.Keys - resolved;
      forall id {:trigger Deps(g[id])} | id in stuck ensures exists d :: d in Deps(g[id]) && d in stuck {
        PendingProvider(g, resolved, id);
      }
      var cycle := StuckHasCycle(g, stuck, [start]);
      assert Cycle(g, cycle);
    }
  }

  lemma PendingProvider(g: map<Id, Service>, resolved: set<Id>, id: Id)
    requires Candidates(g, resolved) == {} && id in g && id !in resolved && Deps(g[id]) <= g.Keys
    ensures exists d :: d in Deps(g[id]) && d in g.Keys - resolved
  {
    assert id !in Candidates(g, resolved);
    var d :| d in Deps(g[id]) && d !in resolved;
    assert d in g.Keys - resolved;
  }

  /** Every service is scheduled strictly after all it depends on, directly or not. */
  lemma {:induction false} ScheduledAfterProviders(g: map<Id, Service>, layers: seq<seq<Id>>, p: seq<Id>, i: nat)
    requires Layering(g, layers) && Walk(g, p) && |p| >= 2
    requires i < |layers| && p[0] in Ready(g, Before(layers, i))
    ensures p[|p| - 1] in Before(layers, i)
    decreases |p|
  {
    assert p[1] in Deps(g[p[0]]) && p[1] in Before(layers, i);
    if |p| > 2 {
      var q := p[1..];
      forall k | 0 <= k < |q| - 1 ensures q[k + 1] in Deps(g[q[k]]) {
        assert q[k] == p[k + 1] && q[k + 1] == p[k + 2];
      }
      var j := LayerOf(g, layers, p[1], i);
      ScheduledAfterProviders(g, layers, q, j);
      BeforeGrows(layers, j, i);
    }
  }

  /** The layer that holds a scheduled service. */
  lemma {:induction false} LayerOf(g: map<Id, Service>, layers: seq<seq<Id>>, id: Id, i: nat) returns (j: nat)
    requires Layered(g, layers) && i <= |layers| && id in Before(layers, i)
    ensures j < i && id in ToSet(layers[j]) && id in Ready(g, Before(layers, j))
  {
    BeforeStep(layers, i - 1);
    if id in Before(layers, i - 1) {
      j := LayerOf(g, layers, id, i - 1);
    } else {
      j := i - 1;
      assert IsLayer(g, layers[j], Before(layers, j));
    }
  }

  lemma {:induction false} BeforeGrows(layers: seq<seq<Id>>, i: nat, j: nat)
    requires i <= j <= |layers|
    ensures Before(layers, i) <= Before(layers, j)
    decreases j - i
  {
    if i < j {
      BeforeStep(layers, i);
      BeforeGrows(layers, i + 1, j);
    }
  }

  lemma LayeringIsAcyclic(g: map<Id, Service>, layers: seq<seq<Id>>)
    requires Layering(g, layers)
    ensures Closed(g) && Acyclic(g)
  {
    forall id {:trigger Deps(g[id])} | id in g ensures Deps(g[id]) <= g.Keys {
      var j := LayerOf(g, layers, id, |layers|);
      BeforeGrows(layers, j, |layers|);
    }
    forall p ensures !Cycle(g, p) {
      if Cycle(g, p) {
        var j := LayerOf(g, layers, p[0], |layers|);
        ScheduledAfterProviders(g, layers, p, j);
      }
    }
  }

  lemma LayeredSnoc(g: map<Id, Service>, layers: seq<seq<Id>>, layer: seq<Id>)
    requires Layered(g, layers) && IsLayer(g, layer, Before(layers, |layers|))
    ensures Layered(g, layers + [layer])
    ensures Before(layers + [layer], |layers| + 1) == Before(layers, |layers|) + ToSet(layer)
  {
    var all := layers + [layer];
    forall i | 0 <= i < |all| ensures IsLayer(g, all[i], Before(all, i)) {
      assert all[..i] == layers[..i];
    }
    BeforeStep(all, |layers|);
    assert all[..|layers|] == layers[..|layers|];
  }

  /** The list comprehension over `pending` yields the candidates, each once. */
  lemma CandidatesFound(services: seq<Service>, pending: map<Id, set<Id>>, resolved: set<Id>, found: seq<Id>)
    requires UniqueServices(services)
    requires pending == Pending(ById(services), resolved)
    requires found == FilterIds(ServiceIds(services), set id | id in pending && pending[id] <= resolved)
    ensures ToSet(found) == Candidates(ById(services), resolved) && NoRepeats(found)
    ensures forall id :: id in found ==> id in pending
  {
    var g := ById(services);
    assert NoRepeats(ServiceIds(services));
    forall id | id in g ensures id in ServiceIds(services) {
      var k :| 0 <= k < |services| && services[k] == g[id];
      assert ServiceIds(services)[k] == id;
    }
  }

  /** Keeping the earliest phase and sorting gives the layer. */
  lemma LayerFound(g: map<Id, Service>, resolved: set<Id>, candidates: seq<Id>, first: seq<Id>)
    requires candidates != [] && NoRepeats(candidates) && ToSet(candidates) == Candidates(g, resolved)
    requires forall id :: id in candidates ==> id in g
    requires first == FilterIds(candidates, set id | id in g && PhaseOf(g[id].kind) == EarliestPhase(g, candidates))
    ensures IsLayer(g, SortBy(first, ByName), resolved)
  {
    SortedNames(first);
    EarliestOfAll(g, resolved, candidates, first);
  }

  lemma EarliestOfAll(g: map<Id, Service>, resolved: set<Id>, candidates: seq<Id>, first: seq<Id>)
    requires candidates != [] && ToSet(candidates) == Candidates(g, resolved)
    requires forall id :: id in candidates ==> id in g
    requires first == FilterIds(candidates, set id | id in g && PhaseOf(g[id].kind) == EarliestPhase(g, candidates))
    ensures ToSet(first) == Ready(g, resolved) && first != []
  {
    assert forall x :: x in candidates <==> x in ToSet(candidates);
    var id :| id in candidates && EarliestPhase(g, candidates) == PhaseOf(g[id].kind);
    assert id in first;
  }

  /** What the scheduler still has to place, with the providers each waits for. */
  function Pending(g: map<Id, Service>, resolved: set<Id>): (r: map<Id, set<Id>>)
    ensures r.Keys == g.Keys - resolved
  {
    if g.Keys <= resolved then map[] else map id | id in g && id !in resolved :: Deps(g[id])
  }

  /** The loop invariant: the layers so far are right, and `resolved` is what they hold. */
  ghost predicate Placed(g: map<Id, Service>, layers: seq<seq<Id>>, resolved: set<Id>) {
    resolved <= g.Keys && resolved == Before(layers, |layers|) && Layered(g, layers)
  }

  lemma RoundKeepsInvariant(g: map<Id, Service>, layers: seq<seq<Id>>, resolved: set<Id>, layer: seq<Id>)
    requires Placed(g, layers, resolved) && IsLayer(g, layer, resolved)
    ensures Placed(g, layers + [layer], resolved + ToSet(layer))
    ensures Pending(g, resolved) - ToSet(layer) == Pending(g, resolved + ToSet(layer))
    ensures |Pending(g, resolved + ToSet(layer)).Keys| < |Pending(g, resolved).Keys|
  {
    LayeredSnoc(g, layers, layer);
    LayerMembers(g, layer, resolved);
    PendingShrinks(g, resolved, ToSet(layer));
  }

  lemma AllPlaced(g: map<Id, Service>, layers: seq<seq<Id>>, resolved: set<Id>)
    requires Placed(g, layers, resolved) && Pending(g, resolved) == map[]
    ensures Layering(g, layers)
  {
    assert Pending(g, resolved).Keys == {};
  }

  lemma PendingShrinks(g: map<Id, Service>, resolved: set<Id>, layer: set<Id>)
    requires layer <= g.Keys - resolved && layer != {}
    ensures Pending(g, resolved) - layer == Pending(g, resolved + layer)
    ensures |Pending(g, resolved + layer).Keys| < |Pending(g, resolved).Keys|
  {
    var x :| x in layer;
    assert x in Pending(g, resolved).Keys && x !in Pending(g, resolved + layer).Keys;
    assert Pending(g, resolved + layer).Keys <= Pending(g, resolved).Keys;
    StrictSubsetSize(Pending(g, resolved + layer).Keys, Pending(g, resolved).Keys);
  }

  /** One round of the loop: the candidates of the earliest phase, sorted by name. */
  method NextLayer(services: seq<Service>, pending: map<Id, set<Id>>, resolved: set<Id>) returns (ready: seq<Id>)
    requires UniqueServices(services)
    requires pending == Pending(ById(services), resolved)
    ensures ready == [] ==> Candidates(ById(services), resolved) == {}
    ensures ready != [] ==> IsLayer(ById(services), ready, resolved)
  {
    var g := ById(services);
    var candidates := FilterIds(ServiceIds(services), set id | id in pending && pending[id] <= resolved);
    CandidatesFound(services, pending, resolved, candidates);
    if candidates == [] {
      return [];
    }
    var earliest := EarliestPhase(g, candidates);
    var first := FilterIds(candidates, set id | id in g && PhaseOf(g[id].kind) == earliest);
    LayerFound(g, resolved, candidates, first);
    return SortBy(first, ByName);
  }

  /** Compute the layers, or fail when some service can never be scheduled. */
  method Layers(services: seq<Service>) returns (r: Result<seq<seq<Id>>>)
    requires UniqueServices(services)
    ensures r.Ok? <==> Closed(ById(services)) && Acyclic(ById(services))
    ensures r.Ok? ==> Layering(ById(services), r.value)
  {
    var g := ById(services);
    var pending := Pending(g, {});
    var resolved: set<Id> := {};
    var layers: seq<seq<Id>> := [];
    while pending != map[]
      invariant pending == Pending(g, resolved)
      invariant Placed(g, layers, resolved)
      decreases |Pending(g, resolved).Keys|
    {
      var ready := NextLayer(services, pending, resolved);
      if ready == [] {
        NothingReady(g, resolved);
        return Fail("service dependency cycle");
      }
      RoundKeepsInvariant(g, layers, resolved, ready);
      layers := layers + [ready];
      resolved := resolved + ToSet(ready);
      pending := pending - ToSet(ready);
    }
    AllPlaced(g, layers, resolved);
    LayeringIsAcyclic(g, layers);
    return Ok(layers);
  }

  lemma LayerMembers(g: map<Id, Service>, layer: seq<Id>, resolved: set<Id>)
    requires IsLayer(g, layer, resolved)
    ensures ToSet(layer) <= g.Keys - resolved && layer[0] in ToSet(layer)
  {
    assert forall id :: id in ToSet(layer) ==> id in Candidates(g, resolved);
  }

  lemma StrictSubsetSize<T>(a: set<T>, b: set<T>)
    requires a < b
    ensures |a| < |b|
  {
    var x :| x in b && x !in a;
    SubsetSize(a, b - {x});
  }
}
