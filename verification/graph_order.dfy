/** Kahn's ordering of a graph, with the left-over nodes appended. */
module GraphOrder {
  import opened Digraph
  import opened ChannelGraph

  /** Every edge between listed nodes goes from an earlier node to a later one. */
  ghost predicate Sorted(rel: Relation, s: seq<Id>) {
    forall i, j :: 0 <= i < |s| && 0 <= j < |s| && (s[i], s[j]) in rel ==> i < j
  }

  function TargetsOf(edges: seq<Edge>, byId: map<Id, Node>, id: Id): seq<Id> {
    if edges == [] then []
    else
      var e := edges[|edges| - 1];
      TargetsOf(edges[..|edges| - 1], byId, id) + if Known(byId, e) && e.source == id then [e.target] else []
  }

  /** The known edges into v that leave a node of `pending`. */
  ghost function PendingInto(edges: seq<Edge>, byId: map<Id, Node>, pending: set<Id>, v: Id): nat {
    if edges == [] then 0
    else
      var e := edges[|edges| - 1];
      PendingInto(edges[..|edges| - 1], byId, pending, v)
        + if Known(byId, e) && e.source in pending && e.target == v then 1 else 0
  }

  lemma {:induction false} TargetsKnown(edges: seq<Edge>, byId: map<Id, Node>, id: Id)
    ensures forall t :: t in TargetsOf(edges, byId, id) ==> t in byId
  {
    if edges != [] { TargetsKnown(edges[..|edges| - 1], byId, id); }
  }

  /** Taking a node out of `pending` releases exactly its own edges. */
  lemma {:induction false} Releases(edges: seq<Edge>, byId: map<Id, Node>, pending: set<Id>, u: Id, v: Id)
    requires u in pending
    ensures PendingInto(edges, byId, pending, v)
         == PendingInto(edges, byId, pending - {u}, v) + multiset(TargetsOf(edges, byId, u))[v]
  {
    if edges != [] { Releases(edges[..|edges| - 1], byId, pending, u, v); }
  }

  lemma {:induction false} PendingMeansEdge(edges: seq<Edge>, byId: map<Id, Node>, pending: set<Id>, v: Id)
    ensures PendingInto(edges, byId, pending, v) > 0
       <==> exists e :: e in edges && Known(byId, e) && e.source in pending && e.target == v
  {
    if edges != [] {
      var last := edges[|edges| - 1];
      PendingMeansEdge(edges[..|edges| - 1], byId, pending, v);
      assert forall e :: e in edges <==> e in edges[..|edges| - 1] || e == last;
    }
  }

  /** The counters count the edges from nodes not in `done`, plus those still listed in `left`. */
  ghost predicate Counts(edges: seq<Edge>, byId: map<Id, Node>, incoming: map<Id, nat>, done: set<Id>, left: seq<Id>) {
    && incoming.Keys == byId.Keys
    && forall v :: v in incoming ==> incoming[v] == PendingInto(edges, byId, byId.Keys - done, v) + multiset(left)[v]
  }

  /** The nodes at zero are exactly the ordered and the ready ones. */
  ghost predicate AtZero(incoming: map<Id, nat>, done: set<Id>, ready: set<Id>) {
    done !! ready && forall v :: v in done + ready <==> v in incoming && incoming[v] == 0
  }

  /** The nodes ordered so far bring their predecessors with them, in order. */
  ghost predicate Settled(flow: Relation, ordered: seq<Id>) {
    Distinct(ordered) && Sorted(flow, ordered) && forall e :: e in flow && e.1 in Elements(ordered) ==>
        e.0 in Elements(ordered)
  }

  lemma TakeReady(edges: seq<Edge>, byId: map<Id, Node>, incoming: map<Id, nat>, done: set<Id>, ready: set<Id>, u: Id)
    requires Counts(edges, byId, incoming, done, []) && AtZero(incoming, done, ready) && u in ready
    ensures Counts(edges, byId, incoming, done + {u}, TargetsOf(edges, byId, u))
    ensures AtZero(incoming, done + {u}, ready - {u}) && u in byId
    ensures forall e :: e in edges && Known(byId, e) && e.target == u ==> e.source in done
  {
    var pending := byId.Keys - done;
    assert u in done + ready && u in pending;
    assert byId.Keys - (done + {u}) == pending - {u};
    forall v | v in incoming
      ensures incoming[v] == PendingInto(edges, byId, pending - {u}, v) + multiset(TargetsOf(edges, byId, u))[v]
    {
      Releases(edges, byId, pending, u, v);
    }
    assert done + {u} + (ready - {u}) == done + ready;
    PendingMeansEdge(edges, byId, pending, u);
  }

  /** Releasing one edge; a node whose last edge is released becomes ready. */
  lemma ReleaseOne(edges: seq<Edge>, byId: map<Id, Node>, incoming: map<Id, nat>, done: set<Id>, ready: set<Id>,
                   left: seq<Id>)
    requires Counts(edges, byId, incoming, done, left) && AtZero(incoming, done, ready) && left != [] && left[0] in byId
    ensures incoming[left[0]] > 0 && left[0] !in ready
    ensures Counts(edges, byId, incoming[left[0] := incoming[left[0]] - 1], done, left[1..])
    ensures AtZero(incoming[left[0] := incoming[left[0]] - 1], done, if incoming[left[0]] == 1 then ready + {left[0]}
        else ready)
  {
    var c := left[0];
    assert left == [c] + left[1..];
    assert multiset(left) == multiset{c} + multiset(left[1..]);
    assert c !in done + ready;
  }

  lemma SettleOne(flow: Relation, ordered: seq<Id>, u: Id)
    requires Settled(flow, ordered) && u !in Elements(ordered)
    requires forall e :: e in flow && e.1 == u ==> e.0 in Elements(ordered)
    ensures Settled(flow, ordered + [u]) && Elements(ordered + [u]) == Elements(ordered) + {u}
  {
    var s := ordered + [u];
    assert forall i :: 0 <= i < |ordered| ==> s[i] in Elements(ordered);
    forall i, j | 0 <= i < |s| && 0 <= j < |s| && (s[i], s[j]) in flow ensures i < j {
      assert s[j] in Elements(ordered) + {u};
    }
  }

  lemma NothingSettled(flow: Relation)
    ensures Settled(flow, [])
  {}

  /** One turn of the main loop: the node taken follows all its predecessors. */
  lemma TakeNext(g: Graph, incoming: map<Id, nat>, ordered: seq<Id>, ready: set<Id>, u: Id)
    requires Counts(g.edges, ById(g.nodes), incoming, Elements(ordered), [])
    requires AtZero(incoming, Elements(ordered), ready)
    requires Settled(Flow(g), ordered) && u in ready
    ensures u in ById(g.nodes) && u !in Elements(ordered) && Elements(ordered + [u]) == Elements(ordered) + {u}
    ensures Counts(g.edges, ById(g.nodes), incoming, Elements(ordered + [u]), TargetsOf(g.edges, ById(g.nodes), u))
    ensures AtZero(incoming, Elements(ordered + [u]), ready - {u}) && Settled(Flow(g), ordered + [u])
  {
    TakeReady(g.edges, ById(g.nodes), incoming, Elements(ordered), ready, u);
    SettleOne(Flow(g), ordered, u);
  }

  method Topo(g: Graph) returns (ordered: seq<Id>)
    ensures Distinct(ordered) && Elements(ordered) == ById(g.nodes).Keys
    ensures Sorted(Flow(g), ordered) <==> !Cyclic(Flow(g))
  {
    hide Counts, AtZero, Sorted, Cyclic, Flow, TargetsOf;
    var byId := ById(g.nodes);
    var ids := IdOrder(g.nodes);
    assert Elements(ids) == byId.Keys;
    var incoming, outgoing, ready := CountEdges(g.edges, byId, ids);
    ordered := [];
    assert Elements(ordered) == {};
    NothingSettled(Flow(g));
    while ready != []
      invariant Counts(g.edges, byId, incoming, Elements(ordered), [])
      invariant AtZero(incoming, Elements(ordered), Elements(ready)) && Distinct(ready)
      invariant Settled(Flow(g), ordered) && Elements(ordered) <= byId.Keys
      decreases byId.Keys - Elements(ordered)
    {
      var u := ready[|ready| - 1];
      RemoveLast(ready);
      TakeNext(g, incoming, ordered, Elements(ready), u);
      ready, ordered := ready[..|ready| - 1], ordered + [u];
      ready, incoming := Release(g.edges, byId, Elements(ordered), ready, incoming, outgoing[u]);
    }
    NobodyReady(g, incoming, Elements(ordered));
    ordered := AppendRest(ordered, ids);
    SortedDecides(g, ordered);
  }

  lemma SortedDecides(g: Graph, s: seq<Id>)
    requires Distinct(s) && Elements(s) == ById(g.nodes).Keys
    ensures Sorted(Flow(g), s) ==> !Cyclic(Flow(g))
  {
    SortedIsAcyclic(Flow(g), s, ById(g.nodes).Keys);
  }

  /** The inner loop over a node's children. */
  method Release(ghost edges: seq<Edge>, ghost byId: map<Id, Node>, ghost done: set<Id>,
                 ready0: seq<Id>, incoming0: map<Id, nat>, children: seq<Id>)
    returns (ready: seq<Id>, incoming: map<Id, nat>)
    requires Counts(edges, byId, incoming0, done, children) && forall c :: c in children ==> c in byId
    requires Distinct(ready0) && AtZero(incoming0, done, Elements(ready0))
    ensures Counts(edges, byId, incoming, done, [])
    ensures Distinct(ready) && AtZero(incoming, done, Elements(ready))
  {
    ready, incoming := ready0, incoming0;
    assert children[0..] == children;
    for j := 0 to |children|
      invariant Counts(edges, byId, incoming, done, children[j..])
      invariant Distinct(ready) && AtZero(incoming, done, Elements(ready))
    {
      ReleaseOne(edges, byId, incoming, done, Elements(ready), children[j..]);
      assert children[j..][1..] == children[j + 1..];
      var c := children[j];
      incoming := incoming[c := incoming[c] - 1];
      if incoming[c] == 0 {
        assert Elements(ready + [c]) == Elements(ready) + {c};
        ready := ready + [c];
      }
    }
    assert children[|children|..] == [];
  }

  method CountEdges(edges: seq<Edge>, byId: map<Id, Node>, ids: seq<Id>)
    returns (incoming: map<Id, nat>, outgoing: map<Id, seq<Id>>, ready: seq<Id>)
    requires Elements(ids) == byId.Keys && Distinct(ids)
    ensures outgoing.Keys == byId.Keys && forall v :: v in byId ==> outgoing[v] == TargetsOf(edges, byId, v)
    ensures forall v, t :: v in byId && t in outgoing[v] ==> t in byId
    ensures Counts(edges, byId, incoming, {}, [])
    ensures Distinct(ready) && AtZero(incoming, {}, Elements(ready))
  {
    incoming, outgoing := Tally(edges, byId);
    assert byId.Keys - {} == byId.Keys;
    forall v | v in byId ensures forall t :: t in outgoing[v] ==> t in byId {
      TargetsKnown(edges, byId, v);
    }
    ready := ZeroIds(incoming, ids);
  }

  lemma OneMoreEdge(edges: seq<Edge>, i: nat, byId: map<Id, Node>, v: Id)
    requires i < |edges|
    ensures var e := edges[i];
      && TargetsOf(edges[..i + 1], byId, v) == TargetsOf(edges[..i], byId, v)
          + (if Known(byId, e) && e.source == v then [e.target] else [])
      && PendingInto(edges[..i + 1], byId, byId.Keys, v)
         == PendingInto(edges[..i], byId, byId.Keys, v) + (if Known(byId, e) && e.target == v then 1 else 0)
  {
    assert edges[..i + 1][..i] == edges[..i];
  }

  ghost predicate Tallied(edges: seq<Edge>, byId: map<Id, Node>, incoming: map<Id, nat>, outgoing: map<Id, seq<Id>>) {
    && incoming.Keys == byId.Keys && outgoing.Keys == byId.Keys
    && (forall v :: v in byId ==> outgoing[v] == TargetsOf(edges, byId, v))
    && (forall v :: v in byId ==> incoming[v] == PendingInto(edges, byId, byId.Keys, v))
  }

  lemma TallyOne(edges: seq<Edge>, i: nat, byId: map<Id, Node>, incoming: map<Id, nat>, outgoing: map<Id, seq<Id>>)
    requires i < |edges| && Tallied(edges[..i], byId, incoming, outgoing)
    ensures var e := edges[i]; if Known(byId, e)
      then Tallied(edges[..i + 1], byId, incoming[e.target := incoming[e.target] + 1],
          outgoing[e.source := outgoing[e.source] + [e.target]])
      else Tallied(edges[..i + 1], byId, incoming, outgoing)
  {
    forall v | v in byId { OneMoreEdge(edges, i, byId, v); }
  }

  method Tally(edges: seq<Edge>, byId: map<Id, Node>) returns (incoming: map<Id, nat>, outgoing: map<Id, seq<Id>>)
    ensures Tallied(edges, byId, incoming, outgoing)
  {
    incoming := map id | id in byId :: 0;
    outgoing := map id | id in byId :: [];
    for i := 0 to |edges|
      invariant Tallied(edges[..i], byId, incoming, outgoing)
    {
      var e := edges[i];
      TallyOne(edges, i, byId, incoming, outgoing);
      if Known(byId, e) {
        outgoing := outgoing[e.source := outgoing[e.source] + [e.target]];
        incoming := incoming[e.target := incoming[e.target] + 1];
      }
    }
    assert edges[..|edges|] == edges;
  }

  method ZeroIds(incoming: map<Id, nat>, ids: seq<Id>) returns (ready: seq<Id>)
    requires Elements(ids) == incoming.Keys && Distinct(ids)
    ensures Distinct(ready) && AtZero(incoming, {}, Elements(ready))
  {
    ready := [];
    for i := 0 to |ids|
      invariant Distinct(ready) && forall v :: v in Elements(ready) <==> v in Elements(ids[..i]) && incoming[v] == 0
    {
      NextElement(ids, i);
      if incoming[ids[i]] == 0 {
        AppendNew(ready, ids[i]);
        ready := ready + [ids[i]];
      }
    }
    assert ids[..|ids|] == ids;
  }

  /** When nothing is ready, the nodes left over each keep a left-over predecessor. */
  lemma NobodyReady(g: Graph, incoming: map<Id, nat>, done: set<Id>)
    requires Counts(g.edges, ById(g.nodes), incoming, done, []) && AtZero(incoming, done, {})
    ensures !Cyclic(Flow(g)) ==> ById(g.nodes).Keys <= done
  {
    var byId := ById(g.nodes);
    var rest := byId.Keys - done;
    forall v | v in rest ensures exists u :: u in rest && (u, v) in Flow(g) {
      assert v !in done + {};
      PendingMeansEdge(g.edges, byId, rest, v);
      var e :| e in g.edges && Known(byId, e) && e.source in rest && e.target == v;
      assert (e.source, v) in Flow(g);
    }
    if rest != {} {
      PredecessorsInsideMakeACycle(Flow(g), rest);
    }
  }

  method AppendRest(ordered: seq<Id>, ids: seq<Id>) returns (all: seq<Id>)
    requires Distinct(ordered) && Elements(ordered) <= Elements(ids) && Distinct(ids)
    ensures Distinct(all) && Elements(all) == Elements(ids)
    ensures Elements(ordered) == Elements(ids) ==> all == ordered
  {
    all := ordered;
    for i := 0 to |ids|
      invariant Distinct(all) && Elements(all) == Elements(ordered) + Elements(ids[..i])
      invariant Elements(ordered) == Elements(ids) ==> all == ordered
    {
      NextElement(ids, i);
      if ids[i] !in ordered {
        AppendNew(all, ids[i]);
        all := all + [ids[i]];
      }
    }
    assert ids[..|ids|] == ids;
  }

  lemma SortedIsAcyclic(flow: Relation, s: seq<Id>, members: set<Id>)
    requires Distinct(s) && Elements(s) == members
    requires forall e :: e in flow ==> e.0 in members && e.1 in members
    ensures Sorted(flow, s) ==> !Cyclic(flow)
  {
    if Sorted(flow, s) {
      var rank: map<Id, nat> := map x | x in members :: Position(s, x);
      assert Ranks(flow, rank);
      AcyclicIffRanked(flow);
    }
  }

  ghost function Position(s: seq<Id>, x: Id): (i: nat)
    requires x in Elements(s)
    ensures i < |s| && s[i] == x
  {
    var i :| 0 <= i < |s| && s[i] == x; i
  }
}
