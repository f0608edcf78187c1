/** The three-colour depth-first cycle check. */
module CycleCheck {
  import opened Digraph
  import opened ChannelGraph

  datatype Color = White | Gray | Black

  type Coloring = map<Id, Color>

  /** The problem names an edge that closes a directed cycle. */
  ghost predicate ClosesCycle(g: Graph, p: Problem) {
    exists e :: e in g.edges && Known(ById(g.nodes), e)
      && p == Problem(GraphCycle, Some(e.source), Some(e.id))
      && Reaches(Flow(g), e.target, e.source)
  }

  ghost function Having(color: Coloring, c: Color): set<Id> {
    set id | id in color && color[id] == c
  }

  ghost function Ids(nodes: seq<Node>): set<Id> {
    set n | n in nodes :: n.id
  }

  lemma MoreIds(nodes: seq<Node>, i: nat)
    requires i < |nodes|
    ensures Ids(nodes[..i + 1]) == Ids(nodes[..i]) + {nodes[i].id}
  {
    assert nodes[..i + 1] == nodes[..i] + [nodes[i]];
  }

  /** The adjacency lists hold exactly the known edges. */
  ghost predicate Indexed(g: Graph, outgoing: map<Id, seq<Edge>>) {
    forall id :: EdgesFrom(g.edges, ById(g.nodes), id) == if id in outgoing then outgoing[id] else []
  }

  /** Black nodes lead only to black nodes that finished before them. */
  ghost predicate Finished(flow: Relation, color: Coloring, rank: map<Id, nat>) {
    && rank.Keys == Having(color, Black)
    && (forall id :: id in rank ==> rank[id] < |rank|)
    && (forall e :: e in flow && e.0 in rank ==> e.1 in rank && rank[e.1] < rank[e.0])
  }

  /** `path` lists the gray nodes from the root of the search down; `rank` is the finishing order
      while no problem has been found. */
  ghost predicate Searching(g: Graph, color: Coloring, problems: seq<Problem>, path: seq<Id>, rank: map<Id, nat>) {
    && color.Keys == ById(g.nodes).Keys
    && Having(color, Gray) == Elements(path)
    && (path != [] ==> IsPath(Flow(g), path))
    && (forall p :: p in problems ==> ClosesCycle(g, p))
    && (problems == [] ==> Finished(Flow(g), color, rank))
  }

  /** From any node of a path one can reach its last node. */
  lemma ReachesAlongPath(rel: Relation, p: seq<Id>, u: Id)
    requires IsPath(rel, p) && u in p
    ensures Reaches(rel, u, p[|p| - 1])
  {
    var i :| 0 <= i < |p| && p[i] == u;
    if i < |p| - 1 {
      assert PathBetween(rel, u, p[|p| - 1], p[i..]);
    }
  }

  /** What a visit started from color0 and problems0 may have done. */
  ghost predicate Advanced(color0: Coloring, problems0: seq<Problem>, color: Coloring, problems: seq<Problem>) {
    && Having(color0, Black) <= Having(color, Black)
    && Having(color, White) <= Having(color0, White)
    && (problems == [] ==> problems0 == [])
  }

  /** A visit blackens its node, leaves the gray nodes gray and only uses up white ones. */
  method Dfs(g: Graph, outgoing: map<Id, seq<Edge>>, nodeId: Id, color0: Coloring, problems0: seq<Problem>,
             ghost path: seq<Id>, ghost rank0: map<Id, nat>)
    returns (color: Coloring, problems: seq<Problem>, ghost rank: map<Id, nat>)
    requires Indexed(g, outgoing) && Searching(g, color0, problems0, path, rank0)
    requires nodeId in color0 && color0[nodeId] == White && IsPath(Flow(g), path + [nodeId])
    ensures Searching(g, color, problems, path, rank) && Advanced(color0, problems0, color, problems)
    ensures nodeId in Having(color, Black)
    decreases Having(color0, White), 1
  {
    EnterNode(g, color0, problems0, path, rank0, nodeId);
    color, problems, rank := color0[nodeId := Gray], problems0, rank0;
    ghost var here := path + [nodeId];
    var edges := if nodeId in outgoing then outgoing[nodeId] else [];
    for i := 0 to |edges|
      invariant Searching(g, color, problems, here, rank)
      invariant Advanced(color0[nodeId := Gray], problems0, color, problems)
      invariant problems == [] ==> Targets(edges[..i]) <= Having(color, Black)
    {
      MoreTargets(edges, i);
      assert edges[i] in edges;
      ghost var black := Having(color, Black);
      color, problems, rank := Follow(g, outgoing, edges[i], color, problems, here, rank);
      assert problems == [] ==> Targets(edges[..i]) <= black;
      assert problems == [] ==> Targets(edges[..i]) + {edges[i].target} <= Having(color, Black);
    }
    assert edges[..|edges|] == edges;
    rank := LeaveNode(g, color, problems, path, rank, nodeId);
    color := color[nodeId := Black];
  }

  /** One outgoing edge of the node being visited. */
  method Follow(g: Graph, outgoing: map<Id, seq<Edge>>, e: Edge, color0: Coloring, problems0: seq<Problem>,
                ghost here: seq<Id>, ghost rank0: map<Id, nat>)
    returns (color: Coloring, problems: seq<Problem>, ghost rank: map<Id, nat>)
    requires Indexed(g, outgoing) && Searching(g, color0, problems0, here, rank0)
    requires here != [] && here[|here| - 1] == e.source && e in g.edges && Known(ById(g.nodes), e)
    ensures Searching(g, color, problems, here, rank) && Advanced(color0, problems0, color, problems)
    ensures problems == [] ==> e.target in Having(color, Black)
    decreases Having(color0, White), 2
  {
    color, problems, rank := color0, problems0, rank0;
    if color[e.target] == Gray {
      FoundCycle(g, color, here, e);
      problems := problems + [Problem(GraphCycle, Some(e.source), Some(e.id))];
    } else if color[e.target] == White {
      ExtendPath(g, here, e);
      color, problems, rank := Dfs(g, outgoing, e.target, color, problems, here, rank);
    }
  }

  lemma EnterNode(g: Graph, color: Coloring, problems: seq<Problem>, path: seq<Id>, rank: map<Id, nat>, nodeId: Id)
    requires Searching(g, color, problems, path, rank) && nodeId in color && color[nodeId] == White
    requires IsPath(Flow(g), path + [nodeId])
    ensures Searching(g, color[nodeId := Gray], problems, path + [nodeId], rank)
    ensures Having(color[nodeId := Gray], White) < Having(color, White) && nodeId !in path
    ensures Having(color[nodeId := Gray], Black) == Having(color, Black)
  {
    Recolored(color, nodeId, Gray);
    assert Elements(path + [nodeId]) == Elements(path) + {nodeId};
  }

  lemma LeaveNode(g: Graph, color: Coloring, problems: seq<Problem>, path: seq<Id>, before: map<Id, nat>, nodeId: Id)
    returns (rank: map<Id, nat>)
    requires Searching(g, color, problems, path + [nodeId], before) && nodeId !in path
    requires path != [] ==> IsPath(Flow(g), path)
    requires problems == [] ==> Targets(EdgesFrom(g.edges, ById(g.nodes), nodeId)) <= Having(color, Black)
    ensures Searching(g, color[nodeId := Black], problems, path, rank)
    ensures Advanced(color, problems, color[nodeId := Black], problems)
    ensures nodeId in Having(color[nodeId := Black], Black)
  {
    assert nodeId in Elements(path + [nodeId]);
    Recolored(color, nodeId, Black);
    assert Elements(path + [nodeId]) - {nodeId} == Elements(path);
    rank := before;
    if problems == [] {
      rank := FinishNode(g, color, before, path, nodeId);
    }
  }

  lemma Recolored(color: Coloring, id: Id, c: Color)
    requires id in color && color[id] != c
    ensures Having(color[id := c], c) == Having(color, c) + {id}
    ensures Having(color[id := c], color[id]) == Having(color, color[id]) - {id}
    ensures id in Having(color, color[id])
    ensures forall d :: d != c && d != color[id] ==> Having(color[id := c], d) == Having(color, d)
  {}

  lemma ExtendPath(g: Graph, here: seq<Id>, e: Edge)
    requires IsPath(Flow(g), here) && here[|here| - 1] == e.source && e in g.edges && Known(ById(g.nodes), e)
    ensures IsPath(Flow(g), here + [e.target])
  {
    assert (e.source, e.target) in Flow(g);
  }

  lemma FoundCycle(g: Graph, color: Coloring, here: seq<Id>, e: Edge)
    requires IsPath(Flow(g), here) && here[|here| - 1] == e.source && e in g.edges && Known(ById(g.nodes), e)
    requires e.target in color && color[e.target] == Gray && Having(color, Gray) == Elements(here)
    ensures ClosesCycle(g, Problem(GraphCycle, Some(e.source), Some(e.id)))
  {
    assert e.target in Having(color, Gray);
    ReachesAlongPath(Flow(g), here, e.target);
  }

  /** Blackening a node all of whose targets are black keeps the finishing order. */
  lemma FinishNode(g: Graph, color: Coloring, before: map<Id, nat>, path: seq<Id>, nodeId: Id)
      returns (rank: map<Id, nat>)
    requires Finished(Flow(g), color, before) && nodeId in color && color[nodeId] != Black
    requires Targets(EdgesFrom(g.edges, ById(g.nodes), nodeId)) <= Having(color, Black)
    ensures Finished(Flow(g), color[nodeId := Black], rank)
  {
    rank := before[nodeId := |before|];
    assert rank.Keys == before.Keys + {nodeId};
    assert Having(color[nodeId := Black], Black) == Having(color, Black) + {nodeId};
    forall e | e in Flow(g) && e.0 in rank ensures e.1 in rank && rank[e.1] < rank[e.0] {
      if e.0 == nodeId {
        var edge :| edge in g.edges && Known(ById(g.nodes), edge) && (edge.source, edge.target) == e;
        assert edge.target in Targets(EdgesFrom(g.edges, ById(g.nodes), nodeId));
      }
    }
  }

  /** A reported problem really is a cycle. */
  lemma ProblemMeansCycle(g: Graph, p: Problem)
    requires ClosesCycle(g, p)
    ensures Cyclic(Flow(g))
  {
    var e :| e in g.edges && Known(ById(g.nodes), e) && Reaches(Flow(g), e.target, e.source)
          && p == Problem(GraphCycle, Some(e.source), Some(e.id));
    assert (e.source, e.target) in Flow(g);
    EdgePrecedes(Flow(g), e.source, e.target);
    if e.target != e.source {
      PrecedesTransitive(Flow(g), e.source, e.target, e.source);
    }
  }

  lemma NothingVisited(g: Graph, color: Coloring)
    requires color.Keys == ById(g.nodes).Keys && forall id :: id in color ==> color[id] == White
    ensures Searching(g, color, [], [], map[])
  {}

  lemma NoGrayAtRoot(g: Graph, color: Coloring, problems: seq<Problem>, rank: map<Id, nat>, n: Node)
    requires Searching(g, color, problems, [], rank) && n in g.nodes
    ensures n.id in color && (color[n.id] == White || n.id in Having(color, Black))
  {
    assert n.id !in Having(color, Gray) by { assert Having(color, Gray) == Elements([]); }
  }

  lemma WhenAllVisited(g: Graph, color: Coloring, problems: seq<Problem>, rank: map<Id, nat>)
    requires Searching(g, color, problems, [], rank) && Ids(g.nodes) <= Having(color, Black)
    ensures problems == [] <==> !Cyclic(Flow(g))
  {
    if problems != [] {
      ProblemMeansCycle(g, problems[0]);
      return;
    }
    forall id | id in ById(g.nodes) ensures id in Ids(g.nodes) {
      assert ById(g.nodes)[id] in g.nodes;
    }
    var upward := map id | id in rank :: |rank| - rank[id];
    assert Ranks(Flow(g), upward);
    AcyclicIffRanked(Flow(g));
  }

  /** The check reports nothing exactly when the edges between known nodes have no directed cycle,
      and everything it reports lies on one. */
  method CycleProblems(g: Graph) returns (problems: seq<Problem>)
    ensures problems == [] <==> !Cyclic(Flow(g))
    ensures forall p :: p in problems ==> ClosesCycle(g, p)
  {
    var outgoing := Outgoing(g);
    var color: Coloring := map id | id in ById(g.nodes) :: White;
    problems := [];
    ghost var rank: map<Id, nat> := map[];
    NothingVisited(g, color);
    for i := 0 to |g.nodes|
      invariant Searching(g, color, problems, [], rank)
      invariant Ids(g.nodes[..i]) <= Having(color, Black)
    {
      var id := g.nodes[i].id;
      NoGrayAtRoot(g, color, problems, rank, g.nodes[i]);
      if color[id] == White {
        color, problems, rank := Dfs(g, outgoing, id, color, problems, [], rank);
      }
      MoreIds(g.nodes, i);
      assert Ids(g.nodes[..i]) + {id} <= Having(color, Black);
    }
    assert g.nodes[..|g.nodes|] == g.nodes;
    WhenAllVisited(g, color, problems, rank);
  }
}
