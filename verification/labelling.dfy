/** The declarative meaning of a walk: which nodes run and how every edge is labelled.
    A node runs when it has no counting incoming edge or one of them is live; a node that ran
    labels its outgoing edges by its ports, a node that did not labels them dead. */
module Labelling {
  import opened Digraph
  import opened ChannelGraph

  datatype EdgeState = Pending | Live | Dead

  type States = seq<EdgeState>

  datatype Link = Link(source: Id, sourcePort: Port, target: Id, targetPort: Port)

  /** The wiring a walk reads. `loops` are the containers. */
  datatype Net = Net(links: seq<Link>, loops: set<Id>)

  ghost function LinkRelation(net: Net): Relation {
    set i | 0 <= i < |net.links| :: (net.links[i].source, net.links[i].target)
  }

  /** An edge into a container that does not target main does not gate it. */
  predicate Back(net: Net, i: nat)
    requires i < |net.links|
  {
    net.links[i].target in net.loops && net.links[i].targetPort != Main
  }

  predicate Counts(net: Net, v: Id, i: nat) {
    i < |net.links| && net.links[i].target == v && !Back(net, i)
  }

  predicate Ready(net: Net, st: States, v: Id)
    requires |st| == |net.links|
  {
    forall i :: 0 <= i < |net.links| && Counts(net, v, i) ==> st[i] != Pending
  }

  predicate LiveIncoming(net: Net, st: States, v: Id)
    requires |st| == |net.links|
  {
    (forall i :: 0 <= i < |net.links| ==> !Counts(net, v, i))
      || exists i :: 0 <= i < |net.links| && Counts(net, v, i) && st[i] == Live
  }

  /** The ports a result declares live; without a declaration, every port but error. */
  predicate LivePort(ports: Option<set<Port>>, p: Port) {
    if ports.None? then p != ErrorPort else p in ports.value
  }

  /** A container that ran leaves its each edges to its rounds. */
  predicate LeftToRounds(net: Net, ran: map<Id, Option<set<Port>>>, i: nat)
    requires i < |net.links|
  {
    net.links[i].source in ran && net.links[i].source in net.loops && net.links[i].sourcePort == Each
  }

  function Label(net: Net, ran: map<Id, Option<set<Port>>>, i: nat): EdgeState
    requires i < |net.links|
  {
    var l := net.links[i];
    if l.source in ran && LivePort(ran[l.source], l.sourcePort) then Live else Dead
  }

  /** The outgoing edges of the nodes of s carry the labels of `ran`. */
  ghost predicate Settled(net: Net, s: set<Id>, st: States, ran: map<Id, Option<set<Port>>>)
    requires |st| == |net.links|
  {
    forall i :: 0 <= i < |net.links| && net.links[i].source in s && !LeftToRounds(net, ran, i) ==>
        st[i] == Label(net, ran, i)
  }

  /** The nodes of s that ran are exactly those the rule says run, and none still waits. */
  ghost predicate Decided(net: Net, s: set<Id>, st: States, ran: map<Id, Option<set<Port>>>)
    requires |st| == |net.links|
  {
    forall v :: v in s ==> Ready(net, st, v) && (v in ran <==> LiveIncoming(net, st, v))
  }

  /** A complete labelling of the nodes of one walk. */
  ghost predicate Labelled(net: Net, direct: set<Id>, st: States, ran: map<Id, Option<set<Port>>>)
    requires |st| == |net.links|
  {
    ran.Keys <= direct && Settled(net, direct, st, ran) && Decided(net, direct, st, ran)
  }

  /** No each edge leads from a node of the walk to another: each leads into a body, outside the walk. */
  ghost predicate EachLeavesWalk(net: Net, direct: set<Id>) {
    forall i :: 0 <= i < |net.links| && net.links[i].source in direct * net.loops && net.links[i].sourcePort == Each
                ==> net.links[i].target !in direct
  }

  /** Edges that enter the walk from outside agree in both states. */
  ghost predicate SameBoundary(net: Net, direct: set<Id>, a: States, b: States)
    requires |a| == |b| == |net.links|
  {
    forall i, v :: 0 <= i < |net.links| && v in direct && Counts(net, v, i) && net.links[i].source !in direct ==>
        a[i] == b[i]
  }

  /** The labelling is unique: from the same boundary and the same results per node, the same nodes run. */
  lemma LabellingIsUnique(net: Net, direct: set<Id>,
                          a: States, ranA: map<Id, Option<set<Port>>>, b: States, ranB: map<Id, Option<set<Port>>>)
    requires |a| == |b| == |net.links| && !Cyclic(LinkRelation(net)) && EachLeavesWalk(net, direct)
    requires Labelled(net, direct, a, ranA) && Labelled(net, direct, b, ranB)
    requires SameBoundary(net, direct, a, b)
    requires forall v :: v in ranA && v in ranB ==> ranA[v] == ranB[v]
    ensures ranA == ranB
    ensures forall i ::
      0 <= i < |net.links| && net.links[i].source in direct && !LeftToRounds(net, ranA, i) ==> a[i] == b[i]
  {
    var differ := set v | v in direct && (v in ranA) != (v in ranB);
    forall v | v in differ ensures exists u :: u in differ && (u, v) in LinkRelation(net) {
      var i := DifferenceHasACause(net, direct, a, b, v);
      assert (net.links[i].source, v) in LinkRelation(net);
      assert net.links[i].source in differ;
    }
    if differ != {} {
      PredecessorsInsideMakeACycle(LinkRelation(net), differ);
    }
    assert ranA.Keys == ranB.Keys by {
      forall v ensures v in ranA <==> v in ranB { assert v !in differ; }
    }
  }

  ghost predicate SameEdges(a: Net, b: Net) {
    a.loops == b.loops && forall l :: l in a.links <==> l in b.links
  }

  /** Equal edges that enter the walk from outside are labelled alike in both lists. */
  ghost predicate BoundaryAlike(netA: Net, netB: Net, direct: set<Id>, a: States, b: States)
    requires |a| == |netA.links| && |b| == |netB.links|
  {
    forall i, j :: 0 <= i < |a| && 0 <= j < |b| && netA.links[i] == netB.links[j] && netA.links[i].target in direct
                   && netA.links[i].source !in direct
                   ==> a[i] == b[j]
  }

  ghost function IndexOf(links: seq<Link>, l: Link): (i: nat)
    requires l in links
    ensures i < |links| && links[i] == l
  {
    var i :| 0 <= i < |links| && links[i] == l;
    i
  }

  /** The labels of a second list of the same edges, in the order of the first. */
  ghost function Reordered(netA: Net, netB: Net, b: States): (c: States)
    requires SameEdges(netA, netB) && |b| == |netB.links|
    ensures |c| == |netA.links|
  {
    seq(|netA.links|, i requires 0 <= i < |netA.links| =>
      assert netA.links[i] in netA.links; b[IndexOf(netB.links, netA.links[i])])
  }

  /** In a labelling equal edges carry equal labels, so reading it in another order changes none of them. */
  lemma ReorderedEdge(netA: Net, netB: Net, direct: set<Id>, a: States, b: States, ran: map<Id, Option<set<Port>>>,
                      i: nat, j: nat)
    requires SameEdges(netA, netB) && |a| == |netA.links| && |b| == |netB.links|
    requires BoundaryAlike(netA, netB, direct, a, b) && Settled(netB, direct, b, ran)
    requires i < |netA.links| && j < |netB.links| && netA.links[i] == netB.links[j]
    requires if netA.links[i].source in direct then !LeftToRounds(netA, ran, i) else netA.links[i].target in direct
    ensures Reordered(netA, netB, b)[i] == b[j]
  {
    var k := IndexOf(netB.links, netA.links[i]);
    assert netA.links[i] in netA.links;
    if netA.links[i].source in direct {
      assert b[k] == Label(netB, ran, k) && b[j] == Label(netB, ran, j);
    }
  }

  lemma CountsAlike(netA: Net, netB: Net, v: Id, i: nat, j: nat)
    requires netA.loops == netB.loops && i < |netA.links| && j < |netB.links| && netA.links[i] == netB.links[j]
    ensures Counts(netA, v, i) <==> Counts(netB, v, j)
  {}

  lemma ReadyAlike(netA: Net, netB: Net, b: States, v: Id)
    requires SameEdges(netA, netB) && |b| == |netB.links| && Ready(netB, b, v)
    ensures Ready(netA, Reordered(netA, netB, b), v)
  {
    forall i | 0 <= i < |netA.links| && Counts(netA, v, i) ensures Reordered(netA, netB, b)[i] != Pending {
      assert netA.links[i] in netA.links;
      CountsAlike(netA, netB, v, i, IndexOf(netB.links, netA.links[i]));
    }
  }

  lemma LiveThere(netA: Net, netB: Net, b: States, v: Id)
    requires SameEdges(netA, netB) && |b| == |netB.links| && LiveIncoming(netA, Reordered(netA, netB, b), v)
    ensures LiveIncoming(netB, b, v)
  {
    if i :| 0 <= i < |netA.links| && Counts(netA, v, i) && Reordered(netA, netB, b)[i] == Live {
      assert netA.links[i] in netA.links;
      CountsAlike(netA, netB, v, i, IndexOf(netB.links, netA.links[i]));
    } else {
      forall j | 0 <= j < |netB.links| ensures !Counts(netB, v, j) {
        assert netB.links[j] in netB.links;
        CountsAlike(netA, netB, v, IndexOf(netA.links, netB.links[j]), j);
      }
    }
  }

  lemma LiveHere(netA: Net, netB: Net, direct: set<Id>, a: States, b: States, ran: map<Id, Option<set<Port>>>, v: Id)
    requires SameEdges(netA, netB) && |a| == |netA.links| && |b| == |netB.links| && v in direct
    requires BoundaryAlike(netA, netB, direct, a, b) && Settled(netB, direct, b, ran) && EachLeavesWalk(netA, direct)
    requires LiveIncoming(netB, b, v)
    ensures LiveIncoming(netA, Reordered(netA, netB, b), v)
  {
    if j :| 0 <= j < |netB.links| && Counts(netB, v, j) && b[j] == Live {
      assert netB.links[j] in netB.links;
      var i := IndexOf(netA.links, netB.links[j]);
      CountsAlike(netA, netB, v, i, j);
      ReorderedEdge(netA, netB, direct, a, b, ran, i, j);
    } else {
      forall i | 0 <= i < |netA.links| ensures !Counts(netA, v, i) {
        assert netA.links[i] in netA.links;
        CountsAlike(netA, netB, v, i, IndexOf(netB.links, netA.links[i]));
      }
    }
  }

  lemma ReorderedIsLabelled(netA: Net, netB: Net, direct: set<Id>, a: States, b: States,
                            ran: map<Id, Option<set<Port>>>)
    requires SameEdges(netA, netB) && |a| == |netA.links| && |b| == |netB.links|
    requires BoundaryAlike(netA, netB, direct, a, b) && Labelled(netB, direct, b, ran) && EachLeavesWalk(netA, direct)
    ensures Labelled(netA, direct, Reordered(netA, netB, b), ran)
    ensures SameBoundary(netA, direct, a, Reordered(netA, netB, b))
  {
    var c := Reordered(netA, netB, b);
    forall v | v in direct ensures Ready(netA, c, v) && (v in ran <==> LiveIncoming(netA, c, v)) {
      ReadyAlike(netA, netB, b, v);
      if LiveIncoming(netB, b, v) {
        LiveHere(netA, netB, direct, a, b, ran, v);
      } else if LiveIncoming(netA, c, v) {
        LiveThere(netA, netB, b, v);
      }
    }
    forall i | 0 <= i < |netA.links| && netA.links[i].source in direct && !LeftToRounds(netA, ran, i)
      ensures c[i] == Label(netA, ran, i)
    {
      assert netA.links[i] in netA.links;
      ReorderedEdge(netA, netB, direct, a, b, ran, i, IndexOf(netB.links, netA.links[i]));
    }
    forall i, v | 0 <= i < |netA.links| && v in direct && Counts(netA, v, i) && netA.links[i].source !in direct
      ensures a[i] == c[i]
    {
      assert netA.links[i] in netA.links;
    }
  }

  /** The labelling does not depend on the order of the edges either: two labellings of two lists of the same edges
      run the same nodes and label equal edges alike. */
  lemma EdgeOrderDoesNotMatter(netA: Net, netB: Net, direct: set<Id>,
                               a: States, ranA: map<Id, Option<set<Port>>>, b: States, ranB: map<Id, Option<set<Port>>>)
    requires SameEdges(netA, netB) && |a| == |netA.links| && |b| == |netB.links|
    requires !Cyclic(LinkRelation(netA)) && EachLeavesWalk(netA, direct)
    requires Labelled(netA, direct, a, ranA) && Labelled(netB, direct, b, ranB)
    requires BoundaryAlike(netA, netB, direct, a, b)
    requires forall v :: v in ranA && v in ranB ==> ranA[v] == ranB[v]
    ensures ranA == ranB
    ensures forall i, j :: 0 <= i < |a| && 0 <= j < |b| && netA.links[i] == netB.links[j]
                           && netA.links[i].source in direct && !LeftToRounds(netA, ranA, i)
                           ==> a[i] == b[j]
  {
    ReorderedIsLabelled(netA, netB, direct, a, b, ranB);
    LabellingIsUnique(netA, direct, a, ranA, Reordered(netA, netB, b), ranB);
    forall i, j | 0 <= i < |a| && 0 <= j < |b| && netA.links[i] == netB.links[j] && netA.links[i].source in direct
                  && !LeftToRounds(netA, ranA, i)
      ensures a[i] == b[j]
    {
      ReorderedEdge(netA, netB, direct, a, b, ranB, i, j);
    }
  }

  /** If the rule decides a node differently in two states, some edge that counts for it differs. */
  lemma DifferenceHasACause(net: Net, direct: set<Id>, a: States, b: States, v: Id) returns (i: nat)
    requires |a| == |b| == |net.links| && v in direct && SameBoundary(net, direct, a, b)
    requires LiveIncoming(net, a, v) != LiveIncoming(net, b, v)
    ensures Counts(net, v, i) && a[i] != b[i] && net.links[i].source in direct
  {
    var on, off := if LiveIncoming(net, a, v) then a else b, if LiveIncoming(net, a, v) then b else a;
    i :| 0 <= i < |net.links| && Counts(net, v, i) && on[i] == Live;
    assert off[i] != Live;
  }

  /** Half-way through a walk: the nodes in `done` are decided and settled, the edges of the others
      still wait, and the boundary is as it was. */
  ghost predicate Progress(net: Net, direct: set<Id>, done: set<Id>, init: States, st: States,
                           ran: map<Id, Option<set<Port>>>)
  {
    && |st| == |init| == |net.links|
    && done <= direct && ran.Keys <= done
    && Settled(net, done, st, ran) && Decided(net, done, st, ran)
    && (forall i, v :: 0 <= i < |net.links| && v in direct && Counts(net, v, i) ==>
          if net.links[i].source in direct then net.links[i].source !in done ==> st[i] == Pending
          else st[i] == init[i])
  }

  /** The states a walk may start from: its own edges wait, the boundary is settled. */
  ghost predicate Startable(net: Net, direct: set<Id>, init: States)
  {
    && |init| == |net.links|
    && forall i, v :: 0 <= i < |net.links| && v in direct && Counts(net, v, i) ==>
         (net.links[i].source in direct <==> init[i] == Pending)
  }

  /** One node of the walk is decided: only its own edges, and edges from outside the walk that do not
      enter it, may have changed. */
  lemma ProgressStep(net: Net, direct: set<Id>, done: set<Id>, init: States,
                     st: States, ran: map<Id, Option<set<Port>>>, u: Id, st': States, ran': map<Id, Option<set<Port>>>)
    requires Progress(net, direct, done, init, st, ran) && Startable(net, direct, init)
    requires !Cyclic(LinkRelation(net)) && EachLeavesWalk(net, direct)
    requires u in direct && u !in done && Ready(net, st, u)
    requires ran'.Keys == (if LiveIncoming(net, st, u) then ran.Keys + {u} else ran.Keys)
    requires forall v :: v in ran ==> ran'[v] == ran[v]
    requires |st'| == |st|
    requires forall i ::
      0 <= i < |net.links| && net.links[i].source in direct && net.links[i].source != u ==> st'[i] == st[i]
    requires SameBoundary(net, direct, st, st')
    requires Settled(net, {u}, st', ran')
    ensures Progress(net, direct, done + {u}, init, st', ran')
  {
    forall v, i | v in done + {u} && 0 <= i < |net.links| && Counts(net, v, i) ensures st'[i] == st[i] {
      IncomingKept(net, direct, done, init, st, ran, u, st', v, i);
    }
    forall v | v in done + {u} ensures Ready(net, st', v) && (v in ran' <==> LiveIncoming(net, st', v)) {
      assert LiveIncoming(net, st', v) <==> LiveIncoming(net, st, v);
    }
    forall i | 0 <= i < |net.links| && net.links[i].source in done && !LeftToRounds(net, ran', i)
      ensures st'[i] == Label(net, ran', i)
    {
      assert !LeftToRounds(net, ran, i);
    }
  }

  lemma IncomingKept(net: Net, direct: set<Id>, done: set<Id>, init: States,
                     st: States, ran: map<Id, Option<set<Port>>>, u: Id, st': States, v: Id, i: nat)
    requires Progress(net, direct, done, init, st, ran) && Startable(net, direct, init)
    requires !Cyclic(LinkRelation(net))
    requires u in direct && u !in done && Ready(net, st, u) && v in done + {u} && Counts(net, v, i)
    requires |st'| == |st|
    requires forall j ::
      0 <= j < |net.links| && net.links[j].source in direct && net.links[j].source != u ==> st'[j] == st[j]
    requires SameBoundary(net, direct, st, st')
    ensures st'[i] == st[i]
  {
    assert Ready(net, st, v) && v in direct;
  }

  /** Every node still to do is on the stack or waits behind another node still to do. */
  ghost predicate Covered(net: Net, direct: set<Id>, done: set<Id>, stack: set<Id>) {
    forall v :: v in direct && v !in done && v !in stack ==> Waits(net, direct - done, v)
  }

  ghost predicate Waits(net: Net, left: set<Id>, v: Id) {
    exists i :: 0 <= i < |net.links| && net.links[i].target == v && net.links[i].source in left
  }

  /** A node that is not ready waits. */
  lemma UnreadyWaits(net: Net, direct: set<Id>, done: set<Id>, init: States, st: States,
                     ran: map<Id, Option<set<Port>>>, v: Id)
    requires Progress(net, direct, done, init, st, ran) && Startable(net, direct, init)
    requires v in direct && !Ready(net, st, v) && EachLeavesWalk(net, direct)
    ensures Waits(net, direct - done, v)
  {
    var i :| 0 <= i < |net.links| && Counts(net, v, i) && st[i] == Pending;
    assert net.links[i].source in direct - done;
  }

  /** After a node is done, its ready targets have been pushed; everything else still waits. */
  lemma CoverStep(net: Net, direct: set<Id>, done: set<Id>, init: States, st: States, ran: map<Id, Option<set<Port>>>,
                  before: set<Id>, u: Id, after: set<Id>)
    requires u in direct && u !in done && EachLeavesWalk(net, direct)
    requires Progress(net, direct, done + {u}, init, st, ran) && Startable(net, direct, init)
    requires Covered(net, direct, done, before) && before - {u} <= after
    requires forall i :: 0 <= i < |net.links| && net.links[i].source == u && net.links[i].target in direct - done - {u}
                         ==> !Ready(net, st, net.links[i].target) || net.links[i].target in after
    ensures Covered(net, direct, done + {u}, after)
  {
    forall v | v in direct && v !in done + {u} && v !in after ensures Waits(net, direct - (done + {u}), v) {
      assert v !in before;
      var i :| 0 <= i < |net.links| && net.links[i].target == v && net.links[i].source in direct - done;
      if net.links[i].source == u {
        UnreadyWaits(net, direct, done + {u}, init, st, ran, v);
      } else {
        assert net.links[i].source in direct - (done + {u});
      }
    }
  }

  /** With an empty stack nothing is left: what is left would be a cycle. */
  lemma NothingLeft(net: Net, direct: set<Id>, done: set<Id>, init: States, st: States, ran: map<Id, Option<set<Port>>>)
    requires !Cyclic(LinkRelation(net)) && Progress(net, direct, done, init, st, ran) && Covered(net, direct, done, {})
    ensures done == direct && Labelled(net, direct, st, ran) && SameBoundary(net, direct, init, st)
  {
    var left := direct - done;
    forall v | v in left ensures exists u :: u in left && (u, v) in LinkRelation(net) {
      var i :| 0 <= i < |net.links| && net.links[i].target == v && net.links[i].source in left;
      assert (net.links[i].source, v) in LinkRelation(net);
    }
    if left != {} {
      PredecessorsInsideMakeACycle(LinkRelation(net), left);
    }
  }
}
