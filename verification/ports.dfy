/** Refining every node's output ports from its ancestors' ports, in topological order.
    The refiner of a node type is an arbitrary function of the node and what its ancestors produced. */
module Ports {
  import opened Digraph
  import opened ChannelGraph
  import opened Ancestry
  import opened GraphOrder

  /** What a refiner sees: ancestor ports by ref, the refs that unambiguous names stand for, and the refs
      of the containers around the node. */
  datatype Upstream<P> = Upstream(ports: map<string, P>, names: map<string, string>, inside: set<string>)

  type Refiner<!P> = (Node, Upstream<P>) -> P

  ghost predicate DistinctRefs(byId: map<Id, Node>) {
    forall a, b :: a in byId && b in byId && byId[a].ref == byId[b].ref ==> a == b
  }

  function Refs(byId: map<Id, Node>, ids: set<Id>): set<string>
    requires ids <= byId.Keys
  {
    set a | a in ids :: byId[a].ref
  }

  /** Each ancestor's ports are found under its ref. */
  ghost predicate IsPortMap<P(!new)>(byId: map<Id, Node>, ids: set<Id>, outputs: map<Id, P>, m: map<string, P>)
    requires ids <= byId.Keys
  {
    && m.Keys == Refs(byId, ids)
    && forall a :: a in ids && a in outputs ==> m[byId[a].ref] == outputs[a]
  }

  ghost predicate HasRef(byId: map<Id, Node>, ids: set<Id>, name: string, ref: string)
    requires ids <= byId.Keys
  {
    exists a :: a in ids && byId[a].name == name && byId[a].ref == ref
  }

  /** A name stands for a ref exactly when every ancestor of that name has that ref. */
  ghost predicate IsNameMap(byId: map<Id, Node>, ids: set<Id>, m: map<string, string>)
    requires ids <= byId.Keys
  {
    && (forall n :: n in m ==> HasRef(byId, ids, n, m[n]))
    && (forall a :: a in ids ==> (byId[a].name in m <==> Unambiguous(byId, ids, byId[a].name)))
    && (forall a :: a in ids && byId[a].name in m ==> m[byId[a].name] == byId[a].ref)
  }

  ghost predicate Unambiguous(byId: map<Id, Node>, ids: set<Id>, name: string)
    requires ids <= byId.Keys
  {
    forall a, b :: a in ids && b in ids && byId[a].name == name && byId[b].name == name ==> byId[a].ref == byId[b].ref
  }

  /** The refs of the containers around a node, walking up until a parent is missing or repeats. */
  ghost function ContainingRefs(byId: map<Id, Node>, catalog: Catalog, id: Id, seen: set<Id>): set<string>
    decreases byId.Keys - seen
  {
    if id in seen || id !in byId then {}
    else
      var parent := ParentRef(byId[id]);
      if parent.None? || parent.value !in byId then {}
      else
        (if IsContainer(byId[parent.value].kind, catalog) then {byId[parent.value].ref} else {})
          + ContainingRefs(byId, catalog, parent.value, seen + {id})
  }

  /** The same walk as a loop. */
  method WalkContainers(byId: map<Id, Node>, catalog: Catalog, id: Id) returns (refs: set<string>)
    ensures refs == ContainingRefs(byId, catalog, id, {})
  {
    refs := {};
    var seen: set<Id>, current := {}, id;
    while current !in seen && current in byId
      invariant refs + ContainingRefs(byId, catalog, current, seen) == ContainingRefs(byId, catalog, id, {})
      decreases byId.Keys - seen
    {
      var parent := ParentRef(byId[current]);
      if parent.None? || parent.value !in byId {
        return;
      }
      seen := seen + {current};
      if IsContainer(byId[parent.value].kind, catalog) {
        refs := refs + {byId[parent.value].ref};
      }
      current := parent.value;
    }
  }

  ghost function AncestorsOf(g: Graph, id: Id): set<Id> {
    set u | u in ById(g.nodes) && Precedes(FrameFlow(g), u, id)
  }

  /** What the refiner of a node sees once all the node's ancestors have ports. */
  ghost predicate IsUpstream<P(!new)>(g: Graph, catalog: Catalog, id: Id, outputs: map<Id, P>, up: Upstream<P>) {
    var byId, ids := ById(g.nodes), AncestorsOf(g, id);
    && ids <= outputs.Keys
    && IsPortMap(byId, ids, outputs, up.ports)
    && IsNameMap(byId, ids, up.names)
    && up.inside == ContainingRefs(byId, catalog, id, {})
  }

  /** The ports of a node given the ports of its ancestors. */
  ghost predicate RefinedFrom<P(!new)>(g: Graph, catalog: Catalog, refine: Refiner<P>, id: Id, outputs: map<Id, P>,
                                produced: P)
    requires id in ById(g.nodes)
  {
    exists up: Upstream<P> :: IsUpstream(g, catalog, id, outputs, up) && produced == refine(ById(g.nodes)[id], up)
  }

  /** Every node's ports are its refiner applied to its ancestors' ports. */
  ghost predicate IsSolution<P(!new)>(g: Graph, catalog: Catalog, refine: Refiner<P>, outputs: map<Id, P>) {
    && outputs.Keys == ById(g.nodes).Keys
    && forall id :: id in outputs ==> RefinedFrom(g, catalog, refine, id, outputs, outputs[id])
  }

  /** Equal ancestor ports make equal views. */
  lemma SameUpstream<P(!new)>(g: Graph, catalog: Catalog, id: Id, a: map<Id, P>, b: map<Id, P>, p: Upstream<P>,
                       q: Upstream<P>)
    requires IsUpstream(g, catalog, id, a, p) && IsUpstream(g, catalog, id, b, q)
    requires forall u :: u in AncestorsOf(g, id) ==> a[u] == b[u]
    ensures p == q
  {
    var byId, ids := ById(g.nodes), AncestorsOf(g, id);
    SamePorts(byId, ids, a, b, p.ports, q.ports);
    SameNames(byId, ids, p.names, q.names);
  }

  lemma SamePorts<P(!new)>(byId: map<Id, Node>, ids: set<Id>, a: map<Id, P>, b: map<Id, P>, p: map<string, P>,
                    q: map<string, P>)
    requires ids <= byId.Keys && ids <= a.Keys && ids <= b.Keys && forall u :: u in ids ==> a[u] == b[u]
    requires IsPortMap(byId, ids, a, p) && IsPortMap(byId, ids, b, q)
    ensures p == q
  {
    forall r | r in p ensures p[r] == q[r] {
      var x :| x in ids && byId[x].ref == r;
    }
  }

  lemma SameNames(byId: map<Id, Node>, ids: set<Id>, p: map<string, string>, q: map<string, string>)
    requires ids <= byId.Keys && IsNameMap(byId, ids, p) && IsNameMap(byId, ids, q)
    ensures p == q
  {
    forall n | n in p ensures n in q && p[n] == q[n] {
      var x :| x in ids && byId[x].name == n && byId[x].ref == p[n];
    }
    forall n | n in q ensures n in p {
      var x :| x in ids && byId[x].name == n && byId[x].ref == q[n];
    }
  }

  /** An acyclic graph has at most one solution. */
  lemma SolutionIsUnique<P(!new)>(g: Graph, catalog: Catalog, refine: Refiner<P>, a: map<Id, P>, b: map<Id, P>)
    requires !Cyclic(Flow(g)) && IsSolution(g, catalog, refine, a) && IsSolution(g, catalog, refine, b)
    ensures a == b
  {
    SubrelationAcyclic(FrameFlow(g), Flow(g));
    AcyclicIffRanked(FrameFlow(g));
    var rank :| Ranks(FrameFlow(g), rank);
    forall id | id in a ensures a[id] == b[id] {
      AgreeBelow(g, catalog, refine, a, b, rank, id);
    }
  }

  lemma {:induction false} AgreeBelow<P(!new)>(g: Graph, catalog: Catalog, refine: Refiner<P>, a: map<Id, P>,
                                        b: map<Id, P>,
                                         rank: map<Id, nat>, id: Id)
    requires IsSolution(g, catalog, refine, a) && IsSolution(g, catalog, refine, b) && id in a
    requires Ranks(FrameFlow(g), rank)
    ensures a[id] == b[id]
    decreases if id in rank then rank[id] else 0
  {
    assert RefinedFrom(g, catalog, refine, id, a, a[id]) && RefinedFrom(g, catalog, refine, id, b, b[id]);
    var p: Upstream<P> :| IsUpstream(g, catalog, id, a, p) && a[id] == refine(ById(g.nodes)[id], p);
    var q: Upstream<P> :| IsUpstream(g, catalog, id, b, q) && b[id] == refine(ById(g.nodes)[id], q);
    forall u | u in AncestorsOf(g, id) ensures a[u] == b[u] {
      PrecedesRaisesRank(FrameFlow(g), rank, u, id);
      AgreeBelow(g, catalog, refine, a, b, rank, u);
    }
    SameUpstream(g, catalog, id, a, b, p, q);
  }

  /** Solutions do not depend on the order of the node and edge lists. */
  lemma OrderOfListsDoesNotMatter<P(!new)>(g: Graph, h: Graph, catalog: Catalog, refine: Refiner<P>, a: map<Id, P>,
                                    b: map<Id, P>)
    requires DistinctIds(g.nodes) && DistinctIds(h.nodes)
    requires forall n :: n in g.nodes <==> n in h.nodes
    requires forall e :: e in g.edges <==> e in h.edges
    requires !Cyclic(Flow(g)) && IsSolution(g, catalog, refine, a) && IsSolution(h, catalog, refine, b)
    ensures a == b
  {
    ReorderedIndex(g.nodes, h.nodes);
    assert Flow(g) == Flow(h) && FrameFlow(g) == FrameFlow(h);
    forall id | id in b ensures RefinedFrom(g, catalog, refine, id, b, b[id]) {
      assert RefinedFrom(h, catalog, refine, id, b, b[id]);
      assert AncestorsOf(g, id) == AncestorsOf(h, id);
    }
    SolutionIsUnique(g, catalog, refine, a, b);
  }

  /** Ports by ref, gathered in whatever order the set of ancestors gives; an ancestor not refined yet counts as `none`.
      */
  method GatherPorts<P(!new)>(byId: map<Id, Node>, ids: set<Id>, outputs: map<Id, P>, none: P)
      returns (m: map<string, P>)
    requires ids <= byId.Keys
    ensures DistinctRefs(byId) ==> IsPortMap(byId, ids, outputs, m)
  {
    m := map[];
    var left := ids;
    while left != {}
      invariant left <= ids
      invariant m.Keys == Refs(byId, ids - left)
      invariant DistinctRefs(byId) ==> forall a :: a in ids - left && a in outputs ==> m[byId[a].ref] == outputs[a]
    {
      var a :| a in left;
      assert Refs(byId, ids - (left - {a})) == Refs(byId, ids - left) + {byId[a].ref};
      m := m[byId[a].ref := if a in outputs then outputs[a] else none];
      left := left - {a};
    }
    assert ids - {} == ids;
  }

  lemma TakeOne(all: set<Id>, left: set<Id>, a: Id)
    requires a in left && left <= all
    ensures all - (left - {a}) == all - left + {a}
  {
  }

  /** The names met so far, the refs they first stood for, and the names met with a second ref. */
  ghost predicate NamesSoFar(byId: map<Id, Node>, ids: set<Id>, names: map<string, string>, ambiguous: set<string>)
    requires ids <= byId.Keys
  {
    && (forall n :: n in names ==> HasRef(byId, ids, n, names[n]))
    && (forall a :: a in ids ==> byId[a].name in names)
    && (forall a :: a in ids ==> byId[a].name in ambiguous || names[byId[a].name] == byId[a].ref)
    && (forall n :: n in ambiguous ==> !Unambiguous(byId, ids, n))
  }

  /** What was known of the names stays known when a node is added. */
  lemma NamesCarried(byId: map<Id, Node>, ids: set<Id>, names: map<string, string>, ambiguous: set<string>, a: Id)
    requires ids <= byId.Keys && a in byId && NamesSoFar(byId, ids, names, ambiguous)
    ensures forall n :: n in ambiguous ==> !Unambiguous(byId, ids + {a}, n)
    ensures forall n :: n in names ==> HasRef(byId, ids + {a}, n, names[n])
  {
    forall n | n in ambiguous ensures !Unambiguous(byId, ids + {a}, n) {
      var x, y :| x in ids && y in ids && byId[x].name == n && byId[y].name == n && byId[x].ref != byId[y].ref;
      assert x in ids + {a} && y in ids + {a};
    }
    forall n | n in names ensures HasRef(byId, ids + {a}, n, names[n]) {
      var x :| x in ids && byId[x].name == n && byId[x].ref == names[n];
      assert x in ids + {a};
    }
  }

  lemma SecondRef(byId: map<Id, Node>, ids: set<Id>, names: map<string, string>, ambiguous: set<string>, a: Id)
    requires ids <= byId.Keys && a in byId && NamesSoFar(byId, ids, names, ambiguous)
    requires byId[a].name in names && names[byId[a].name] != byId[a].ref
    ensures NamesSoFar(byId, ids + {a}, names, ambiguous + {byId[a].name})
  {
    NamesCarried(byId, ids, names, ambiguous, a);
    assert HasRef(byId, ids + {a}, byId[a].name, names[byId[a].name]);
    assert a in ids + {a} && !Unambiguous(byId, ids + {a}, byId[a].name);
  }

  lemma FirstRef(byId: map<Id, Node>, ids: set<Id>, names: map<string, string>, ambiguous: set<string>, a: Id)
    requires ids <= byId.Keys && a in byId && NamesSoFar(byId, ids, names, ambiguous)
    requires byId[a].name in names ==> names[byId[a].name] == byId[a].ref
    ensures NamesSoFar(byId, ids + {a}, names[byId[a].name := byId[a].ref], ambiguous)
  {
    NamesCarried(byId, ids, names, ambiguous, a);
    assert HasRef(byId, ids + {a}, byId[a].name, byId[a].ref) by {
      assert a in ids + {a};
    }
  }

  lemma NamesSettled(byId: map<Id, Node>, ids: set<Id>, names: map<string, string>, ambiguous: set<string>)
    requires ids <= byId.Keys && NamesSoFar(byId, ids, names, ambiguous)
    ensures IsNameMap(byId, ids, names - ambiguous)
  {
  }

  /** Names gathered the same way; a name met with two refs is dropped at the end. */
  method GatherNames(byId: map<Id, Node>, ids: set<Id>) returns (m: map<string, string>)
    requires ids <= byId.Keys
    ensures IsNameMap(byId, ids, m)
  {
    var names: map<string, string> := map[];
    var ambiguous: set<string> := {};
    var left := ids;
    while left != {}
      invariant left <= ids && NamesSoFar(byId, ids - left, names, ambiguous)
    {
      var a :| a in left;
      TakeOne(ids, left, a);
      var name := byId[a].name;
      if name in names && names[name] != byId[a].ref {
        SecondRef(byId, ids - left, names, ambiguous, a);
        ambiguous := ambiguous + {name};
      } else {
        FirstRef(byId, ids - left, names, ambiguous, a);
        names := names[name := byId[a].ref];
      }
      left := left - {a};
    }
    assert ids - {} == ids;
    NamesSettled(byId, ids, names, ambiguous);
    m := names - ambiguous;
  }

  /** What holds after refining the first part of the order. */
  ghost predicate RefinedSoFar<P(!new)>(g: Graph, catalog: Catalog, refine: Refiner<P>, done: set<Id>,
                                 outputs: map<Id, P>) {
    && outputs.Keys == done && done <= ById(g.nodes).Keys
    && forall id :: id in outputs ==> RefinedFrom(g, catalog, refine, id, outputs, outputs[id])
  }

  /** The refinement pass computes the solution. */
  method RefinePorts<P(!new)>(g: Graph, catalog: Catalog, refine: Refiner<P>, none: P) returns (outputs: map<Id, P>)
    ensures outputs.Keys == ById(g.nodes).Keys
    ensures !Cyclic(Flow(g)) && DistinctRefs(ById(g.nodes)) ==> IsSolution(g, catalog, refine, outputs)
  {
    hide Flow, Cyclic, RefinedFrom, IsPortMap, IsNameMap, IsAncestorSet, ContainingRefs, Sorted, AncestorsOf;
    var byId := ById(g.nodes);
    var ancestors := AncestorSets(g);
    AncestorsAreKnown(g, ancestors);
    var order := Topo(g);
    outputs := map[];
    for i := 0 to |order|
      invariant outputs.Keys == Elements(order[..i])
      invariant !Cyclic(Flow(g)) && DistinctRefs(byId) ==> RefinedSoFar(g, catalog, refine, outputs.Keys, outputs)
    {
      NextElement(order, i);
      var id := order[i];
      assert id in byId;
      var ports := GatherPorts(byId, ancestors[id], outputs, none);
      var names := GatherNames(byId, ancestors[id]);
      var inside := WalkContainers(byId, catalog, id);
      var up := Upstream(ports, names, inside);
      var produced := refine(byId[id], up);
      if !Cyclic(Flow(g)) && DistinctRefs(byId) {
        AncestorsFirst(g, order, i);
        ExtendByView(g, catalog, refine, outputs, id, up);
      }
      outputs := outputs[id := produced];
    }
    assert order[..|order|] == order;
  }

  lemma ExtendByView<P(!new)>(g: Graph, catalog: Catalog, refine: Refiner<P>, outputs: map<Id, P>, id: Id,
                       up: Upstream<P>)
    requires id in ById(g.nodes) && id !in outputs && AncestorsOf(g, id) <= outputs.Keys
    requires IsPortMap(ById(g.nodes), AncestorsOf(g, id), outputs, up.ports)
    requires IsNameMap(ById(g.nodes), AncestorsOf(g, id), up.names)
    requires up.inside == ContainingRefs(ById(g.nodes), catalog, id, {})
    requires RefinedSoFar(g, catalog, refine, outputs.Keys, outputs)
    ensures RefinedSoFar(g, catalog, refine, outputs.Keys + {id}, outputs[id := refine(ById(g.nodes)[id], up)])
  {
    assert IsUpstream(g, catalog, id, outputs, up);
    Extend(g, catalog, refine, outputs, id, refine(ById(g.nodes)[id], up));
  }

  lemma AncestorsAreKnown(g: Graph, found: map<Id, set<Id>>)
    requires found.Keys == ById(g.nodes).Keys && forall v :: v in found ==> IsAncestorSet(FrameFlow(g), v, found[v])
    ensures forall v :: v in found ==> found[v] == AncestorsOf(g, v) && found[v] <= ById(g.nodes).Keys
  {
    forall v, u | v in found && u in found[v] ensures u in ById(g.nodes) {
      var w := FirstEdge(FrameFlow(g), u, v);
    }
    forall v | v in found ensures found[v] == AncestorsOf(g, v) {}
  }

  lemma AncestorsFirst(g: Graph, order: seq<Id>, i: nat)
    requires i < |order| && Sorted(Flow(g), order) && Distinct(order) && Elements(order) == ById(g.nodes).Keys
    ensures AncestorsOf(g, order[i]) <= Elements(order[..i])
  {
    var rank: map<Id, nat> := map x | x in Elements(order) :: Position(order, x);
    assert Ranks(FrameFlow(g), rank);
    forall u | u in AncestorsOf(g, order[i]) ensures u in Elements(order[..i]) {
      PrecedesRaisesRank(FrameFlow(g), rank, u, order[i]);
      assert order[..i][rank[u]] == u;
    }
  }

  /** Adding a node does not disturb the nodes already refined. */
  lemma Extend<P(!new)>(g: Graph, catalog: Catalog, refine: Refiner<P>, outputs: map<Id, P>, id: Id, produced: P)
    requires id in ById(g.nodes) && id !in outputs && RefinedFrom(g, catalog, refine, id, outputs, produced)
    requires RefinedSoFar(g, catalog, refine, outputs.Keys, outputs)
    ensures RefinedSoFar(g, catalog, refine, outputs.Keys + {id}, outputs[id := produced])
  {
    hide IsNameMap, ContainingRefs, AncestorsOf;
    var more := outputs[id := produced];
    forall x | x in more ensures RefinedFrom(g, catalog, refine, x, more, more[x]) {
      assert RefinedFrom(g, catalog, refine, x, outputs, more[x]);
      var up: Upstream<P> :| IsUpstream(g, catalog, x, outputs, up) && more[x] == refine(ById(g.nodes)[x], up);
      assert IsUpstream(g, catalog, x, more, up);
    }
  }
}
