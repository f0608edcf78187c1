/** Container frames: the validator's frame, trigger and reachability checks, and what they buy. */
module Frames {
  import opened Digraph
  import opened ChannelGraph
  import opened Ancestry

  /** What a node's raw parent field may hold. */
  predicate ParentAccepted(byId: map<Id, Node>, catalog: Catalog, n: Node) {
    n.parent.NoParent? || (ParentRef(n).Some? && ParentRef(n).value in byId
        && IsContainer(byId[ParentRef(n).value].kind, catalog))
  }

  /** A frame is entered only from its container's each port, and each leads only into that frame. */
  predicate EdgeAccepted(byId: map<Id, Node>, catalog: Catalog, e: Edge)
    requires Known(byId, e)
  {
    && !CrossesFrame(byId, e.source, e.target)
    && (IsContainer(byId[e.source].kind, catalog) ==>
          (ParentRef(byId[e.target]) == Some(e.source) <==> e.sourcePort == Each))
  }

  ghost predicate FrameClean(g: Graph, catalog: Catalog) {
    && (forall n :: n in g.nodes ==> ParentAccepted(ById(g.nodes), catalog, n))
    && !Cyclic(ParentRelation(g))
    && (forall e :: e in g.edges && Known(ById(g.nodes), e) ==> EdgeAccepted(ById(g.nodes), catalog, e))
  }

  /** Follow the parents of `start` until they end, leave the containers, or repeat. */
  method ParentCycle(g: Graph, catalog: Catalog, start: Id) returns (cycle: bool)
    requires start in ById(g.nodes)
    ensures cycle ==> Cyclic(ParentRelation(g))
    ensures AllParentsAccepted(g, catalog) && Precedes(ParentRelation(g), start, start) ==> cycle
  {
    var byId := ById(g.nodes);
    ghost var rel := ParentRelation(g);
    var seen := {start};
    var current := start;
    while true
      invariant current in byId && current in seen && seen <= byId.Keys
      invariant forall s :: s in seen ==> Reaches(rel, current, s)
      invariant Precedes(rel, start, start) ==> Precedes(rel, current, current)
      decreases byId.Keys - seen
    {
      var parent := ParentRef(byId[current]);
      if parent.None? || parent.value !in byId {
        NoParentNoCycle(g, current);
        return false;
      }
      assert (parent.value, current) in rel;
      EdgePrecedes(rel, parent.value, current);
      if parent.value in seen {
        if parent.value != current { PrecedesTransitive(rel, parent.value, current, parent.value); }
        return true;
      }
      if !IsContainer(byId[parent.value].kind, catalog) {
        assert byId[current] in g.nodes;
        return false;
      }
      forall s | s in seen ensures Reaches(rel, parent.value, s) {
        if s != current { PrecedesTransitive(rel, parent.value, current, s); }
      }
      if Precedes(rel, current, current) { ParentStaysOnCycle(g, current, parent.value); }
      seen, current := seen + {parent.value}, parent.value;
    }
  }

  lemma NoParentNoCycle(g: Graph, id: Id)
    requires id in ById(g.nodes)
    requires ParentRef(ById(g.nodes)[id]).None? || ParentRef(ById(g.nodes)[id]).value !in ById(g.nodes)
    ensures !Precedes(ParentRelation(g), id, id)
  {
    if Precedes(ParentRelation(g), id, id) {
      var w := LastEdge(ParentRelation(g), id, id);
      assert false;
    }
  }

  lemma ParentStaysOnCycle(g: Graph, id: Id, parent: Id)
    requires (parent, id) in ParentRelation(g) && Precedes(ParentRelation(g), id, id)
    ensures Precedes(ParentRelation(g), parent, parent)
  {
    var rel := ParentRelation(g);
    var w := LastEdge(rel, id, id);
    assert w == parent;
    EdgePrecedes(rel, parent, id);
    if id != parent { PrecedesTransitive(rel, parent, id, parent); }
  }

  /** The frame check reports nothing exactly on frame-clean graphs. */
  method FrameProblems(g: Graph, catalog: Catalog) returns (problems: seq<Problem>)
    ensures problems == [] <==> FrameClean(g, catalog)
  {
    var parents := ParentProblems(g, catalog);
    var edges := EdgeProblems(g, catalog);
    problems := parents + edges;
  }

  /** What the parent loop has established about one listed node. */
  ghost predicate ParentChecked(g: Graph, catalog: Catalog, n: Node) {
    && ParentAccepted(ById(g.nodes), catalog, n)
    && (!n.parent.NoParent? && AllParentsAccepted(g, catalog) ==> !Precedes(ParentRelation(g), n.id, n.id))
  }

  ghost predicate AllParentsAccepted(g: Graph, catalog: Catalog) {
    forall n :: n in g.nodes ==> ParentAccepted(ById(g.nodes), catalog, n)
  }

  method ParentProblems(g: Graph, catalog: Catalog) returns (problems: seq<Problem>)
    ensures problems == [] <==> AllParentsAccepted(g, catalog) && !Cyclic(ParentRelation(g))
  {
    var byId := ById(g.nodes);
    problems := [];
    for i := 0 to |g.nodes|
      invariant problems == [] ==> forall n :: n in g.nodes[..i] ==> ParentChecked(g, catalog, n)
      invariant problems != [] ==> !AllParentsAccepted(g, catalog) || Cyclic(ParentRelation(g))
    {
      var n := g.nodes[i];
      assert forall m :: m in g.nodes[..i + 1] <==> m in g.nodes[..i] || m == n;
      assert n in g.nodes;
      if !n.parent.NoParent? {
        if !ParentAccepted(byId, catalog, n) {
          problems := problems + [Problem(LoopBodyInvalid, Some(n.id), None)];
        } else {
          var cycle := ParentCycle(g, catalog, n.id);
          if cycle {
            problems := problems + [Problem(LoopBodyInvalid, Some(n.id), None)];
          }
        }
      }
    }
    assert g.nodes[..|g.nodes|] == g.nodes;
    if problems == [] {
      ParentsCheckedMeansForest(g, catalog);
    }
  }

  lemma ParentsCheckedMeansForest(g: Graph, catalog: Catalog)
    requires forall n :: n in g.nodes ==> ParentChecked(g, catalog, n)
    ensures AllParentsAccepted(g, catalog) && !Cyclic(ParentRelation(g))
  {
    var rel := ParentRelation(g);
    forall u ensures !Precedes(rel, u, u) {
      if Precedes(rel, u, u) {
        var w := LastEdge(rel, u, u);
        assert false;
      }
    }
  }

  method EdgeProblems(g: Graph, catalog: Catalog) returns (problems: seq<Problem>)
    ensures problems == [] <==>
      forall e :: e in g.edges && Known(ById(g.nodes), e) ==> EdgeAccepted(ById(g.nodes), catalog, e)
  {
    var byId := ById(g.nodes);
    problems := [];
    for i := 0 to |g.edges|
      invariant problems == [] <==> forall e :: e in g.edges[..i] && Known(byId, e) ==> EdgeAccepted(byId, catalog, e)
    {
      var e := g.edges[i];
      assert forall x :: x in g.edges[..i + 1] <==> x in g.edges[..i] || x == e;
      if Known(byId, e) {
        if CrossesFrame(byId, e.source, e.target) {
          problems := problems + [Problem(LoopBodyInvalid, Some(e.source), Some(e.id))];
        } else if IsContainer(byId[e.source].kind, catalog) {
          var targetParent := ParentRef(byId[e.target]);
          if targetParent == Some(e.source) && e.sourcePort != Each {
            problems := problems + [Problem(LoopBodyInvalid, Some(e.source), Some(e.id))];
          } else if e.sourcePort == Each && targetParent != Some(e.source) {
            problems := problems + [Problem(LoopBodyInvalid, Some(e.source), Some(e.id))];
          }
        }
      }
    }
    assert g.edges[..|g.edges|] == g.edges;
  }

  function Triggers(nodes: seq<Node>, catalog: Catalog): (t: seq<Id>)
    ensures forall id :: id in t <==> exists n :: n in nodes && IsTrigger(n, catalog) && n.id == id
  {
    if nodes == [] then []
    else
      var n := nodes[|nodes| - 1];
      var rest := Triggers(nodes[..|nodes| - 1], catalog);
      assert forall m :: m in nodes <==> m in nodes[..|nodes| - 1] || m == n;
      if IsTrigger(n, catalog) then rest + [n.id] else rest
  }

  /** One trigger node, and no edge into a trigger. */
  ghost predicate TriggerClean(g: Graph, catalog: Catalog) {
    && |Triggers(g.nodes, catalog)| == 1
    && NoEdgeIntoTrigger(g.edges, ById(g.nodes), catalog)
  }

  ghost predicate NoEdgeIntoTrigger(edges: seq<Edge>, byId: map<Id, Node>, catalog: Catalog) {
    forall e :: e in edges && e.target in byId ==> !IsTrigger(byId[e.target], catalog)
  }

  method TriggerProblems(g: Graph, catalog: Catalog) returns (problems: seq<Problem>)
    ensures problems == [] <==> TriggerClean(g, catalog)
  {
    var byId := ById(g.nodes);
    var triggers := Triggers(g.nodes, catalog);
    problems := [];
    if triggers == [] {
      problems := [Problem(GraphNoTrigger, None, None)];
    } else if |triggers| > 1 {
      problems := seq(|triggers|, i requires 0 <= i < |triggers| => Problem(GraphMultipleTriggers, Some(triggers[i]),
          None));
    }
    ghost var counted := problems;
    for i := 0 to |g.edges|
      invariant problems == [] <==> counted == [] && NoEdgeIntoTrigger(g.edges[..i], byId, catalog)
    {
      var e := g.edges[i];
      assert forall x :: x in g.edges[..i + 1] <==> x in g.edges[..i] || x == e;
      if e.target in byId && IsTrigger(byId[e.target], catalog) {
        problems := problems + [Problem(GraphTriggerInput, Some(e.target), Some(e.id))];
      }
    }
    assert g.edges[..|g.edges|] == g.edges;
  }

  /** The node is reached from some trigger. */
  ghost predicate FromTrigger(g: Graph, catalog: Catalog, id: Id) {
    ReachedFrom(g, Triggers(g.nodes, catalog), id)
  }

  method ReachabilityProblems(g: Graph, catalog: Catalog) returns (problems: seq<Problem>)
    ensures problems == [] <==> forall n :: n in g.nodes ==> FromTrigger(g, catalog, n.id)
  {
    var seen := ReachableFrom(g, Triggers(g.nodes, catalog));
    problems := [];
    for i := 0 to |g.nodes|
      invariant problems == [] <==> forall n :: n in g.nodes[..i] ==> n.id in seen
    {
      assert forall m :: m in g.nodes[..i + 1] <==> m in g.nodes[..i] || m == g.nodes[i];
      if g.nodes[i].id !in seen {
        problems := problems + [Problem(GraphUnreachable, Some(g.nodes[i].id), None)];
      }
    }
    assert g.nodes[..|g.nodes|] == g.nodes;
  }
}
