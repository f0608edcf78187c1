/** The worklist walks: ancestors inside a frame, and forward reachability. */
module Ancestry {
  import opened Digraph
  import opened ChannelGraph

  /** The ids from which `id` is reached along at least one edge inside its frame. */
  ghost predicate IsAncestorSet(rel: Relation, id: Id, s: set<Id>) {
    forall u :: u in s <==> Precedes(rel, u, id)
  }

  /** `sources[v]` holds the direct predecessors of v. */
  ghost predicate Predecessors(rel: Relation, sources: map<Id, set<Id>>) {
    && (forall v, u :: v in sources && u in sources[v] ==> u in sources)
    && (forall u, v :: (u, v) in rel <==> v in sources && u in sources[v])
  }

  /** One of the edges leads from u to v inside a frame. */
  ghost predicate IsIncoming(byId: map<Id, Node>, edges: seq<Edge>, u: Id, v: Id) {
    exists e ::
      e in edges && Known(byId, e) && !CrossesFrame(byId, e.source, e.target) && u == e.source && v == e.target
  }

  ghost predicate IncomingSoFar(byId: map<Id, Node>, edges: seq<Edge>, incoming: map<Id, set<Id>>) {
    && incoming.Keys == byId.Keys
    && forall v, u :: v in incoming ==> (u in incoming[v] <==> IsIncoming(byId, edges, u, v))
  }

  predicate Inside(byId: map<Id, Node>, e: Edge) {
    Known(byId, e) && !CrossesFrame(byId, e.source, e.target)
  }

  lemma IncomingOne(byId: map<Id, Node>, edges: seq<Edge>, i: nat, u: Id, v: Id)
    requires i < |edges|
    ensures var e := edges[i];
      IsIncoming(byId, edges[..i + 1], u, v)
      <==> IsIncoming(byId, edges[..i], u, v) || (Inside(byId, e) && u == e.source && v == e.target)
  {
    assert forall x :: x in edges[..i + 1] <==> x in edges[..i] || x == edges[i];
  }

  lemma IncomingStep(byId: map<Id, Node>, edges: seq<Edge>, i: nat, incoming: map<Id, set<Id>>)
    requires i < |edges| && IncomingSoFar(byId, edges[..i], incoming)
    ensures var e := edges[i];
      IncomingSoFar(byId, edges[..i + 1],
                    if Inside(byId, e) then incoming[e.target := incoming[e.target] + {e.source}] else incoming)
  {
    hide IsIncoming, CrossesFrame;
    var e := edges[i];
    var more := if Inside(byId, e) then incoming[e.target := incoming[e.target] + {e.source}] else incoming;
    forall v, u | v in more ensures u in more[v] <==> IsIncoming(byId, edges[..i + 1], u, v) {
      IncomingOne(byId, edges, i, u, v);
    }
  }

  lemma IncomingIsFlow(g: Graph, incoming: map<Id, set<Id>>)
    requires IncomingSoFar(ById(g.nodes), g.edges, incoming)
    ensures Predecessors(FrameFlow(g), incoming)
  {
    forall u, v ensures (u, v) in FrameFlow(g) <==> v in incoming && u in incoming[v] {}
  }

  method IncomingSets(g: Graph) returns (incoming: map<Id, set<Id>>)
    ensures incoming.Keys == ById(g.nodes).Keys && Predecessors(FrameFlow(g), incoming)
  {
    var byId := ById(g.nodes);
    incoming := map id | id in byId :: {};
    for i := 0 to |g.edges|
      invariant IncomingSoFar(byId, g.edges[..i], incoming)
    {
      var e := g.edges[i];
      IncomingStep(byId, g.edges, i, incoming);
      if Known(byId, e) && !CrossesFrame(byId, e.source, e.target) {
        incoming := incoming[e.target := incoming[e.target] + {e.source}];
      }
    }
    assert g.edges[..|g.edges|] == g.edges;
    IncomingIsFlow(g, incoming);
  }

  /** The worklist closure below one node. */
  method Above(ghost rel: Relation, incoming: map<Id, set<Id>>, id: Id) returns (seen: set<Id>)
    requires Predecessors(rel, incoming) && id in incoming
    ensures IsAncestorSet(rel, id, seen)
  {
    seen := {};
    var stack := Listed(incoming[id]);
    DirectPredecessors(rel, incoming, id, id);
    while stack != []
      invariant seen <= incoming.Keys && Elements(stack) <= incoming.Keys
      invariant forall u :: u in seen || u in Elements(stack) ==> Precedes(rel, u, id)
      invariant incoming[id] <= seen + Elements(stack)
      invariant forall c :: c in seen ==> incoming[c] <= seen + Elements(stack)
      decreases incoming.Keys - seen, |stack|
    {
      var current := stack[|stack| - 1];
      ghost var before := Elements(stack);
      assert stack == stack[..|stack| - 1] + [current];
      assert Elements(stack) == Elements(stack[..|stack| - 1]) + {current};
      stack := stack[..|stack| - 1];
      if current !in seen {
        var more := Listed(incoming[current]);
        DirectPredecessors(rel, incoming, current, id);
        assert Elements(stack + more) == Elements(stack) + incoming[current];
        assert seen + before <= seen + {current} + Elements(stack + more);
        seen := seen + {current};
        stack := stack + more;
      }
    }
    forall u | Precedes(rel, u, id) ensures u in seen {
      ClosedHoldsAncestors(rel, incoming, seen, u, id);
    }
  }

  lemma DirectPredecessors(rel: Relation, incoming: map<Id, set<Id>>, current: Id, id: Id)
    requires Predecessors(rel, incoming) && current in incoming && Reaches(rel, current, id)
    ensures incoming[current] <= incoming.Keys
    ensures forall u :: u in incoming[current] ==> Precedes(rel, u, id)
  {
    forall u | u in incoming[current] ensures Precedes(rel, u, id) {
      EdgePrecedes(rel, u, current);
      if current != id { PrecedesTransitive(rel, u, current, id); }
    }
  }

  lemma ClosedHoldsAncestors(rel: Relation, incoming: map<Id, set<Id>>, seen: set<Id>, u: Id, id: Id)
    requires Predecessors(rel, incoming) && id in incoming && seen <= incoming.Keys
    requires incoming[id] <= seen && forall c :: c in seen ==> incoming[c] <= seen
    requires Precedes(rel, u, id)
    ensures u in seen
  {
    var w := LastEdge(rel, u, id);
    if u != w {
      var p :| PathBetween(rel, u, w, p);
      ClosedUnderPredecessors(rel, seen, p);
    }
  }

  /** Every node's ancestors inside its frame. */
  method AncestorSets(g: Graph) returns (found: map<Id, set<Id>>)
    ensures found.Keys == ById(g.nodes).Keys
    ensures forall v :: v in found ==> IsAncestorSet(FrameFlow(g), v, found[v])
  {
    var incoming := IncomingSets(g);
    var ids := IdOrder(g.nodes);
    assert Elements(ids) == incoming.Keys;
    found := map[];
    for i := 0 to |ids|
      invariant found.Keys == Elements(ids[..i])
      invariant forall v :: v in found ==> IsAncestorSet(FrameFlow(g), v, found[v])
    {
      NextElement(ids, i);
      var above := Above(FrameFlow(g), incoming, ids[i]);
      found := found[ids[i] := above];
    }
    assert ids[..|ids|] == ids;
  }

  /** The closure a stop-at run is cut to: exactly what reaches the node inside its frame. */
  method AncestorClosure(g: Graph, id: Id) returns (closure: Option<set<Id>>)
    ensures closure.Some? <==> id in ById(g.nodes)
    ensures closure.Some? ==> forall u :: u in closure.value <==> Reaches(FrameFlow(g), u, id)
  {
    var byId := ById(g.nodes);
    if id !in byId { return None; }
    var found := AncestorSets(g);
    closure := Some(found[id] + {id});
  }

  /** Forward reachability from a start set by a stack and a seen set. */
  method ReachableFrom(g: Graph, starts: seq<Id>) returns (seen: set<Id>)
    requires forall s :: s in starts ==> s in ById(g.nodes)
    ensures forall v :: v in seen <==> ReachedFrom(g, starts, v)
  {
    var outgoing := Outgoing(g);
    ghost var byId := ById(g.nodes);
    seen := {};
    var stack := starts;
    while stack != []
      invariant Elements(stack) <= byId.Keys && seen <= byId.Keys
      invariant Elements(starts) <= seen + Elements(stack)
      invariant forall v :: v in seen + Elements(stack) ==> ReachedFrom(g, starts, v)
      invariant forall e :: e in Flow(g) && e.0 in seen ==> e.1 in seen + Elements(stack)
      decreases byId.Keys - seen, |stack|
    {
      var id := stack[|stack| - 1];
      ghost var before := Elements(stack);
      assert stack == stack[..|stack| - 1] + [id];
      assert before == Elements(stack[..|stack| - 1]) + {id};
      stack := stack[..|stack| - 1];
      if id !in seen {
        var kids := TargetList(g, id, if id in outgoing then outgoing[id] else []);
        KidsReached(g, starts, id, kids);
        assert Elements(stack + kids) == Elements(stack) + Elements(kids);
        seen := seen + {id};
        stack := stack + kids;
      }
    }
    forall v | ReachedFrom(g, starts, v) ensures v in seen {
      var s :| s in starts && Reaches(Flow(g), s, v);
      assert s in Elements(starts);
      if s != v {
        var p :| PathBetween(Flow(g), s, v, p);
        ClosedUnderSuccessors(Flow(g), seen, p);
      }
    }
  }

  ghost predicate ReachedFrom(g: Graph, starts: seq<Id>, v: Id) {
    exists s :: s in starts && Reaches(Flow(g), s, v)
  }

  method TargetList(ghost g: Graph, ghost id: Id, edges: seq<Edge>) returns (kids: seq<Id>)
    requires edges == EdgesFrom(g.edges, ById(g.nodes), id)
    ensures forall v :: v in Elements(kids) <==> (id, v) in Flow(g)
  {
    kids := [];
    for i := 0 to |edges|
      invariant Elements(kids) == Targets(edges[..i])
    {
      MoreTargets(edges, i);
      assert Elements(kids + [edges[i].target]) == Elements(kids) + {edges[i].target};
      kids := kids + [edges[i].target];
    }
    assert edges[..|edges|] == edges;
    TargetsAreFlow(g, id);
  }

  lemma TargetsAreFlow(g: Graph, id: Id)
    ensures forall v :: v in Targets(EdgesFrom(g.edges, ById(g.nodes), id)) <==> (id, v) in Flow(g)
  {}

  lemma KidsReached(g: Graph, starts: seq<Id>, id: Id, kids: seq<Id>)
    requires ReachedFrom(g, starts, id) && forall v :: v in Elements(kids) <==> (id, v) in Flow(g)
    ensures forall v :: v in Elements(kids) ==> ReachedFrom(g, starts, v) && v in ById(g.nodes)
  {
    var s :| s in starts && Reaches(Flow(g), s, id);
    forall v | v in Elements(kids) ensures ReachedFrom(g, starts, v) && v in ById(g.nodes) {
      EdgePrecedes(Flow(g), id, v);
      if s != id { PrecedesTransitive(Flow(g), s, id, v); }
      assert Reaches(Flow(g), s, v);
    }
  }
}
