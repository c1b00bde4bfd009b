/** Expansion of a locality policy into an explicit peer matrix, and what consumes it. */
module Peerings {
  import opened Ordering
  import opened Model
  import opened Routing

  /** A directed peer link: `source` dials `address:port` of `target` on `network`. */
  datatype Edge = Edge(source: Id, target: Id, network: Id, address: nat, port: nat)

  // ---------------------------------------------------------------- ordered pairs of different peers

  /** The peers other than `source`, in order. */
  function Others(ids: seq<Id>, source: Id): seq<Id> {
    if ids == [] then []
    else (if ids[0] == source then [] else [ids[0]]) + Others(ids[1..], source)
  }

  lemma {:induction false} OthersExact(ids: seq<Id>, source: Id)
    requires NoRepeats(ids)
    ensures |Others(ids, source)| == |ids| - (if source in ids then 1 else 0)
    ensures forall x :: x in Others(ids, source) <==> x in ids && x != source
    ensures NoRepeats(Others(ids, source))
  {
    if ids != [] {
      OthersExact(ids[1..], source);
      assert ids == [ids[0]] + ids[1..];
      assert ids[0] !in ids[1..];
    }
  }

  datatype Link = Link(source: Id, target: Id)

  function Row(source: Id, targets: seq<Id>): (r: seq<Link>)
    ensures |r| == |targets| && forall i :: 0 <= i < |r| ==> r[i] == Link(source, targets[i])
  {
    seq(|targets|, i requires 0 <= i < |targets| => Link(source, targets[i]))
  }

  /** `for source in sources for target in targets if source != target` */
  function Links(sources: seq<Id>, targets: seq<Id>): seq<Link> {
    if sources == [] then []
    else Row(sources[0], Others(targets, sources[0])) + Links(sources[1..], targets)
  }

  lemma RowMembers(source: Id, targets: seq<Id>, l: Link)
    ensures l in Row(source, targets) <==> l.source == source && l.target in targets
  {
    if l.source == source && l.target in targets {
      var i :| 0 <= i < |targets| && targets[i] == l.target;
      assert Row(source, targets)[i] == l;
    }
  }

  /** Every ordered pair of different peers is linked, and nothing else. */
  lemma {:induction false} LinksCover(sources: seq<Id>, targets: seq<Id>, l: Link)
    requires NoRepeats(targets)
    ensures l in Links(sources, targets) <==> l.source in sources && l.target in targets && l.source != l.target
  {
    if sources != [] {
      assert sources == [sources[0]] + sources[1..];
      LinksCover(sources[1..], targets, l);
      OthersExact(targets, sources[0]);
      RowMembers(sources[0], Others(targets, sources[0]), l);
    }
  }

  lemma Distribute(n: int, m: int)
    ensures (n - 1) * m + m == n * m
  {
  }

  lemma {:induction false} LinksCount(sources: seq<Id>, targets: seq<Id>)
    requires NoRepeats(targets) && forall s :: s in sources ==> s in targets
    ensures |Links(sources, targets)| == |sources| * (|targets| - 1)
  {
    if sources != [] {
      LinksCount(sources[1..], targets);
      OthersExact(targets, sources[0]);
      Distribute(|sources|, |targets| - 1);
    }
  }

  /** No pair is linked twice. */
  lemma {:induction false} LinksDistinct(sources: seq<Id>, targets: seq<Id>)
    requires NoRepeats(sources) && NoRepeats(targets)
    ensures NoRepeats(Links(sources, targets))
  {
    if sources != [] {
      var s, rest := sources[0], sources[1..];
      assert s !in rest;
      LinksDistinct(rest, targets);
      OthersExact(targets, s);
      var row := Row(s, Others(targets, s));
      forall l | l in row ensures l !in Links(rest, targets) {
        RowMembers(s, Others(targets, s), l);
        LinksCover(rest, targets, l);
      }
      NoRepeatsConcat(row, Links(rest, targets));
    }
  }

  // ---------------------------------------------------------------- edges

  /** What decides an edge: the routing, the traffic and the port of each peer. */
  datatype Family = Family(t: Topology, g: map<Id, Service>, traffic: Traffic, ports: map<Id, nat>)

  function EdgeFor(f: Family, l: Link): Option<Edge> {
    if l.source !in f.g || l.target !in f.g || l.target !in f.ports then None
    else if f.g[l.source].machine !in f.t.machines || f.g[l.target].machine !in f.t.machines then None
    else
      var target := f.t.machines[f.g[l.target].machine];
      var network := NetworkFor(f.t, f.traffic, f.t.machines[f.g[l.source].machine], target);
      if network.None? || network.value !in target.addresses then None
      else Some(Edge(l.source, l.target, network.value, target.addresses[network.value], f.ports[l.target]))
  }

  /** The edge list of a list of links; one unusable link is an error. */
  function Edges(f: Family, links: seq<Link>): (r: Option<seq<Edge>>)
    ensures r.Some? <==> forall i :: 0 <= i < |links| ==> EdgeFor(f, links[i]).Some?
    ensures r.Some? ==> |r.value| == |links| && forall i :: 0 <= i < |links| ==>
            EdgeFor(f, links[i]) == Some(r.value[i])
  {
    if links == [] then Some([])
    else
      var first, rest := EdgeFor(f, links[0]), Edges(f, links[1..]);
      if first.None? || rest.None? then None else Some([first.value] + rest.value)
  }

  /** The peer matrix of one family. */
  function Mesh(f: Family, ids: seq<Id>): Option<seq<Edge>> {
    Edges(f, Links(ids, ids))
  }

  /** The edge carries the target's own address on the network selected for the pair, and its port. */
  ghost predicate OwnAddress(f: Family, e: Edge) {
    && e.source in f.g && e.target in f.g && e.target in f.ports
    && f.g[e.source].machine in f.t.machines && f.g[e.target].machine in f.t.machines
    && PolicyGives(f.t, f.traffic, f.t.machines[f.g[e.source].machine], f.t.machines[f.g[e.target].machine], e.network)
    && e.network in f.t.machines[f.g[e.target].machine].addresses
    && e.address == f.t.machines[f.g[e.target].machine].addresses[e.network]
    && e.port == f.ports[e.target]
  }

  /** There is exactly one edge for a pair of peers, or none. */
  lemma EdgeIff(f: Family, l: Link, e: Edge)
    ensures EdgeFor(f, l) == Some(e) <==> e.source == l.source && e.target == l.target && OwnAddress(f, e)
  {
    if l.source in f.g && l.target in f.g && f.g[l.source].machine in f.t.machines &&
        f.g[l.target].machine in f.t.machines {
      NetworkIff(f.t, f.traffic, f.t.machines[f.g[l.source].machine], f.t.machines[f.g[l.target].machine], e.network);
    }
  }

  /** `b` has an address on the network the policy gives from `a`. */
  ghost predicate Addressed(f: Family, a: Id, b: Id) {
    exists e: Edge :: e.source == a && e.target == b && OwnAddress(f, e)
  }

  lemma AddressedIff(f: Family, a: Id, b: Id)
    ensures EdgeFor(f, Link(a, b)).Some? <==> Addressed(f, a, b)
  {
    var edge := EdgeFor(f, Link(a, b));
    if edge.Some? {
      EdgeIff(f, Link(a, b), edge.value);
    }
    if e: Edge :| e.source == a && e.target == b && OwnAddress(f, e) {
      EdgeIff(f, Link(a, b), e);
    }
  }

  /** No two edges join the same peers, and none joins a peer to itself. */
  ghost predicate Simple(edges: seq<Edge>) {
    && (forall i :: 0 <= i < |edges| ==> edges[i].source != edges[i].target)
    && (forall i, j :: 0 <= i < j < |edges| ==>
        edges[i].source != edges[j].source || edges[i].target != edges[j].target)
  }

  predicate Joined(edges: seq<Edge>, source: Id, target: Id) {
    exists e :: e in edges && e.source == source && e.target == target
  }

  /** The matrix exists when every ordered pair of different peers has an edge. */
  lemma MeshDefined(f: Family, ids: seq<Id>)
    requires NoRepeats(ids)
    ensures Mesh(f, ids).Some? <==> AllAddressed(f, ids)
  {
    var links := Links(ids, ids);
    if Mesh(f, ids).Some? {
      forall a, b | a in ids && b in ids && a != b ensures Addressed(f, a, b) {
        AddressedIff(f, a, b);
        LinksCover(ids, ids, Link(a, b));
        var i :| 0 <= i < |links| && links[i] == Link(a, b);
      }
    } else {
      var i :| 0 <= i < |links| && EdgeFor(f, links[i]).None?;
      assert links[i] in links;
      LinksCover(ids, ids, links[i]);
      assert links[i] == Link(links[i].source, links[i].target);
      AddressedIff(f, links[i].source, links[i].target);
    }
  }

  /** It has n(n-1) edges, without loop or duplicate. */
  lemma MeshIsSimple(f: Family, ids: seq<Id>, edges: seq<Edge>)
    requires NoRepeats(ids) && Mesh(f, ids) == Some(edges)
    ensures |edges| == |ids| * (|ids| - 1) && Simple(edges)
  {
    var links := Links(ids, ids);
    LinksCount(ids, ids);
    LinksDistinct(ids, ids);
    forall i | 0 <= i < |edges|
      ensures edges[i].source == links[i].source && edges[i].target == links[i].target &&
              links[i].source != links[i].target
    {
      assert EdgeFor(f, links[i]) == Some(edges[i]) && links[i] in links;
      LinksCover(ids, ids, links[i]);
    }
  }

  /** Its edges stay inside the family and carry the target's own address. */
  lemma MeshIsOwn(f: Family, ids: seq<Id>, edges: seq<Edge>, e: Edge)
    requires NoRepeats(ids) && Mesh(f, ids) == Some(edges) && e in edges
    ensures e.source in ids && e.target in ids && e.source != e.target && OwnAddress(f, e)
  {
    var links := Links(ids, ids);
    var i :| 0 <= i < |edges| && edges[i] == e;
    assert EdgeFor(f, links[i]) == Some(e) && links[i] in links;
    EdgeIff(f, links[i], e);
    LinksCover(ids, ids, links[i]);
  }

  /** It joins every two different peers in both directions. */
  lemma MeshIsComplete(f: Family, ids: seq<Id>, edges: seq<Edge>, a: Id, b: Id)
    requires NoRepeats(ids) && Mesh(f, ids) == Some(edges) && a in ids && b in ids && a != b
    ensures Joined(edges, a, b)
  {
    var links := Links(ids, ids);
    LinksCover(ids, ids, Link(a, b));
    var i :| 0 <= i < |links| && links[i] == Link(a, b);
    assert EdgeFor(f, links[i]) == Some(edges[i]) && edges[i] in edges;
  }

  /** Every ordered pair of different peers has a network and an address. */
  ghost predicate AllAddressed(f: Family, ids: seq<Id>) {
    forall a, b :: a in ids && b in ids && a != b ==> Addressed(f, a, b)
  }

  /**
   * One edge for every ordered pair of different peers, at the target's own address; each peer
   * dials the others in order.
   */
  ghost predicate FullMesh(f: Family, ids: seq<Id>, edges: seq<Edge>) {
    && |edges| == |ids| * (|ids| - 1) && Simple(edges)
    && (forall e :: e in edges ==> e.source in ids && e.target in ids && OwnAddress(f, e))
    && (forall a, b {:trigger Joined(edges, a, b)} :: a in ids && b in ids && a != b ==> Joined(edges, a, b))
    && (forall a :: a in ids ==> Targets(Dialled(edges, a)) == Others(ids, a))
  }

  lemma MeshIsFull(f: Family, ids: seq<Id>, edges: seq<Edge>)
    requires NoRepeats(ids) && Mesh(f, ids) == Some(edges)
    ensures FullMesh(f, ids, edges)
  {
    MeshIsSimple(f, ids, edges);
    forall e | e in edges ensures e.source in ids && e.target in ids && OwnAddress(f, e) {
      MeshIsOwn(f, ids, edges, e);
    }
    forall a, b | a in ids && b in ids && a != b ensures Joined(edges, a, b) {
      MeshIsComplete(f, ids, edges, a, b);
    }
    forall a | a in ids ensures Targets(Dialled(edges, a)) == Others(ids, a) {
      DialsOthers(f, ids, ids, edges, a);
    }
  }

  // ---------------------------------------------------------------- who dials whom

  /** The peers a source dials, in the order of its edges. */
  function Dialled(edges: seq<Edge>, source: Id): seq<Edge> {
    if edges == [] then []
    else (if edges[0].source == source then [edges[0]] else []) + Dialled(edges[1..], source)
  }

  function Targets(edges: seq<Edge>): (r: seq<Id>)
    ensures |r| == |edges| && forall i :: 0 <= i < |r| ==> r[i] == edges[i].target
  {
    seq(|edges|, i requires 0 <= i < |edges| => edges[i].target)
  }

  lemma {:induction false} DialledConcat(a: seq<Edge>, b: seq<Edge>, source: Id)
    ensures Dialled(a + b, source) == Dialled(a, source) + Dialled(b, source)
  {
    if a == [] {
      assert a + b == b;
    } else {
      var head := if a[0].source == source then [a[0]] else [];
      DialledConcat(a[1..], b, source);
      assert (a + b)[0] == a[0] && (a + b)[1..] == a[1..] + b;
      Associative(head, Dialled(a[1..], source), Dialled(b, source));
    }
  }

  lemma {:induction false} DialledOf(edges: seq<Edge>, source: Id, own: bool)
    requires forall e :: e in edges ==> (e.source == source) == own
    ensures Dialled(edges, source) == if own then edges else []
  {
    if edges != [] {
      DialledOf(edges[1..], source, own);
      assert edges[0] in edges && edges == [edges[0]] + edges[1..];
    }
  }

  lemma EdgesSplit(f: Family, a: seq<Link>, b: seq<Link>, edges: seq<Edge>)
    requires Edges(f, a + b) == Some(edges)
    ensures |edges| == |a| + |b| && Edges(f, a) == Some(edges[..|a|]) && Edges(f, b) == Some(edges[|a|..])
  {
    forall i | 0 <= i < |a| ensures EdgeFor(f, a[i]) == Some(edges[i]) { assert (a + b)[i] == a[i]; }
    forall i | 0 <= i < |b| ensures EdgeFor(f, b[i]) == Some(edges[|a| + i]) { assert (a + b)[|a| + i] == b[i]; }
    assert Edges(f, a).value == edges[..|a|];
    assert Edges(f, b).value == edges[|a|..];
  }

  lemma RowDials(f: Family, source: Id, targets: seq<Id>, edges: seq<Edge>)
    requires Edges(f, Row(source, targets)) == Some(edges)
    ensures Targets(edges) == targets && forall e :: e in edges ==> e.source == source
  {
    forall i | 0 <= i < |edges| ensures edges[i].source == source && edges[i].target == targets[i] {
      assert EdgeFor(f, Row(source, targets)[i]) == Some(edges[i]);
    }
  }

  lemma TargetsConcat(a: seq<Edge>, b: seq<Edge>)
    ensures Targets(a + b) == Targets(a) + Targets(b)
  {
  }

  /** One source's edges, then the others': who dials whom. */
  lemma RowThenRest(f: Family, s: Id, others: seq<Id>, first: seq<Edge>, more: seq<Edge>, source: Id)
    requires Edges(f, Row(s, others)) == Some(first)
    ensures Targets(Dialled(first + more, source)) == (if source == s then others else []) +
            Targets(Dialled(more, source))
  {
    RowDials(f, s, others, first);
    DialledConcat(first, more, source);
    DialledOf(first, source, source == s);
    TargetsConcat(Dialled(first, source), Dialled(more, source));
  }

  lemma FirstRow(f: Family, s: Id, rest: seq<Id>, ids: seq<Id>, edges: seq<Edge>)
    returns (first: seq<Edge>, more: seq<Edge>)
    requires Edges(f, Links([s] + rest, ids)) == Some(edges)
    ensures edges == first + more
    ensures Edges(f, Row(s, Others(ids, s))) == Some(first) && Edges(f, Links(rest, ids)) == Some(more)
  {
    var row := Row(s, Others(ids, s));
    assert ([s] + rest)[1..] == rest;
    EdgesSplit(f, row, Links(rest, ids), edges);
    first, more := edges[..|row|], edges[|row|..];
  }

  /** Each source dials every other peer exactly once, in order. */
  lemma {:induction false} DialsOthers(f: Family, sources: seq<Id>, ids: seq<Id>, edges: seq<Edge>, source: Id)
    requires NoRepeats(sources) && Edges(f, Links(sources, ids)) == Some(edges)
    ensures Targets(Dialled(edges, source)) == if source in sources then Others(ids, source) else []
  {
    if sources != [] {
      var s, rest := sources[0], sources[1..];
      assert sources == [s] + rest;
      var first, more := FirstRow(f, s, rest, ids, edges);
      DialsOthers(f, rest, ids, more, source);
      RowThenRest(f, s, Others(ids, s), first, more, source);
      assert s !in rest;
    }
  }
}
