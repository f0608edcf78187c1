/** A Data Channel graph as the validator and the engine read it.
    Ports, parents and types are kept; configuration is not. */
module ChannelGraph {
  import opened Digraph

  datatype Option<+T> = None | Some(value: T)

  /** The raw `parent` field: missing, text, or some other JSON value. */
  datatype ParentField = NoParent | ParentText(id: Id) | ParentOther

  datatype Node = Node(id: Id, ref: string, name: string, kind: string, parent: ParentField)

  datatype Port = Main | Each | ErrorPort | NamedPort(name: string)

  datatype Edge = Edge(id: string, source: Id, sourcePort: Port, target: Id, targetPort: Port)

  datatype Graph = Graph(nodes: seq<Node>, edges: seq<Edge>)

  datatype NodeType = NodeType(trigger: bool, container: bool, declaresError: bool)

  type Catalog = map<string, NodeType>

  datatype Code =
    | GraphCycle
    | GraphNoTrigger
    | GraphMultipleTriggers
    | GraphTriggerInput
    | GraphUnreachable
    | LoopBodyInvalid

  datatype Problem = Problem(code: Code, nodeId: Option<Id>, edgeId: Option<string>)

  /** The last node with an id wins, as in a dict comprehension. */
  function ById(nodes: seq<Node>): (m: map<Id, Node>)
    ensures forall k :: k in m ==> m[k] in nodes && m[k].id == k
    ensures forall n :: n in nodes ==> n.id in m
  {
    if nodes == [] then map[] else ById(nodes[..|nodes| - 1])[nodes[|nodes| - 1].id := nodes[|nodes| - 1]]
  }

  ghost predicate DistinctIds(nodes: seq<Node>) {
    forall i, j :: 0 <= i < j < |nodes| ==> nodes[i].id != nodes[j].id
  }

  predicate Known(byId: map<Id, Node>, e: Edge) {
    e.source in byId && e.target in byId
  }

  /** Every edge between two known nodes. */
  ghost function Flow(g: Graph): Relation {
    set e | e in g.edges && Known(ById(g.nodes), e) :: (e.source, e.target)
  }

  function ParentRef(n: Node): Option<Id> {
    if n.parent.ParentText? && n.parent.id != Id("") then Some(n.parent.id) else None
  }

  predicate IsContainer(kind: string, catalog: Catalog) {
    kind in catalog && catalog[kind].container
  }

  predicate IsTrigger(n: Node, catalog: Catalog) {
    n.kind in catalog && catalog[n.kind].trigger
  }

  /** An edge crosses a frame when its endpoints have different parents and its source is not its target's parent. */
  predicate CrossesFrame(byId: map<Id, Node>, source: Id, target: Id)
    requires source in byId && target in byId
  {
    ParentRef(byId[source]) != ParentRef(byId[target]) && ParentRef(byId[target]) != Some(source)
  }

  /** The edges an ancestor walk follows. */
  ghost function FrameFlow(g: Graph): Relation {
    set e | e in g.edges && Known(ById(g.nodes), e) && !CrossesFrame(ById(g.nodes), e.source, e.target) ::
        (e.source, e.target)
  }

  /** (parent, child) for every known parent. */
  ghost function ParentRelation(g: Graph): Relation {
    set c | c in ById(g.nodes) && ParentRef(ById(g.nodes)[c]).Some?
        && ParentRef(ById(g.nodes)[c]).value in ById(g.nodes)
      :: (ParentRef(ById(g.nodes)[c]).value, c)
  }

  function EdgesFrom(edges: seq<Edge>, byId: map<Id, Node>, id: Id): (out: seq<Edge>)
    ensures forall e :: e in out <==> e in edges && Known(byId, e) && e.source == id
  {
    if edges == [] then []
    else
      var rest := EdgesFrom(edges[..|edges| - 1], byId, id);
      var e := edges[|edges| - 1];
      if Known(byId, e) && e.source == id then rest + [e] else rest
  }

  ghost function Targets(edges: seq<Edge>): set<Id> {
    set e | e in edges :: e.target
  }

  lemma MoreTargets(edges: seq<Edge>, i: nat)
    requires i < |edges|
    ensures Targets(edges[..i + 1]) == Targets(edges[..i]) + {edges[i].target}
  {
    assert edges[..i + 1] == edges[..i] + [edges[i]];
  }

  /** The adjacency lists the depth-first passes walk; a node without edges has no entry. */
  method Outgoing(g: Graph) returns (out: map<Id, seq<Edge>>)
    ensures forall id :: EdgesFrom(g.edges, ById(g.nodes), id) == if id in out then out[id] else []
  {
    var byId := ById(g.nodes);
    out := map[];
    for i := 0 to |g.edges|
      invariant forall id :: EdgesFrom(g.edges[..i], byId, id) == if id in out then out[id] else []
    {
      var e := g.edges[i];
      assert g.edges[..i + 1][..i] == g.edges[..i];
      if Known(byId, e) {
        out := out[e.source := (if e.source in out then out[e.source] else []) + [e]];
      }
    }
    assert g.edges[..|g.edges|] == g.edges;
  }

  /** The ids in the order a dict keeps them: by first appearance. */
  function IdOrder(nodes: seq<Node>): (ids: seq<Id>)
    ensures forall id :: id in ids <==> id in ById(nodes)
    ensures forall i, j :: 0 <= i < j < |ids| ==> ids[i] != ids[j]
  {
    if nodes == [] then []
    else
      var rest := IdOrder(nodes[..|nodes| - 1]);
      if nodes[|nodes| - 1].id in rest then rest else rest + [nodes[|nodes| - 1].id]
  }

  /** A worklist filled from a set, in whatever order the set gives. */
  method Listed(s: set<Id>) returns (items: seq<Id>)
    ensures Elements(items) == s
  {
    items := [];
    var left := s;
    while left != {}
      invariant left <= s && Elements(items) == s - left
    {
      var x :| x in left;
      assert Elements(items + [x]) == Elements(items) + {x};
      items, left := items + [x], left - {x};
    }
  }

  /** With distinct ids the index is the plain lookup, so it does not depend on the list order. */
  lemma {:induction false} ByIdOfDistinct(nodes: seq<Node>, n: Node)
    requires DistinctIds(nodes) && n in nodes
    ensures ById(nodes)[n.id] == n
  {
    var last := nodes[|nodes| - 1];
    if n != last {
      assert n in nodes[..|nodes| - 1];
      ByIdOfDistinct(nodes[..|nodes| - 1], n);
      var i :| 0 <= i < |nodes| - 1 && nodes[i] == n;
      assert nodes[i].id != last.id;
    }
  }

  lemma ReorderedIndex(a: seq<Node>, b: seq<Node>)
    requires DistinctIds(a) && DistinctIds(b)
    requires forall n :: n in a <==> n in b
    ensures ById(a) == ById(b)
  {
    forall k | k in ById(a) ensures k in ById(b) && ById(a)[k] == ById(b)[k] {
      ByIdOfDistinct(a, ById(a)[k]);
      ByIdOfDistinct(b, ById(a)[k]);
    }
    forall k | k in ById(b) ensures k in ById(a) {
      ByIdOfDistinct(b, ById(b)[k]);
    }
  }
}
