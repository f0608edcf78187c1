/** The frames of an accepted graph as the engine sees them, and the two facts the nested walks rest on:
    a body's nodes are never mixed with the nodes of the frame around it, and arming a body restores
    every edge its walk reads. */
module Plan {
  import opened Digraph
  import opened ChannelGraph
  import opened Labelling

  /** `parent` maps a node to its container; nodes outside every container have no entry. */
  datatype Plan = Plan(ids: set<Id>, net: Net, parent: map<Id, Id>, reachable: set<Id>)

  ghost function Parents(plan: Plan): Relation {
    set c | c in plan.parent :: (plan.parent[c], c)
  }

  function FrameOf(plan: Plan, v: Id): Option<Id> {
    if v in plan.parent then Some(plan.parent[v]) else None
  }

  function Body(plan: Plan, loop: Id): set<Id> {
    set v | v in plan.parent && plan.parent[v] == loop
  }

  /** v lies in the body of c, at any depth. */
  ghost predicate Under(plan: Plan, c: Id, v: Id) {
    Precedes(Parents(plan), c, v)
  }

  predicate LinkAccepted(plan: Plan, l: Link) {
    && (FrameOf(plan, l.source) == FrameOf(plan, l.target) || FrameOf(plan, l.target) == Some(l.source))
    && (l.source in plan.net.loops ==> (FrameOf(plan, l.target) == Some(l.source) <==> l.sourcePort == Each))
  }

  /** What an accepted graph and its reachable set give the engine. */
  ghost predicate Sound(plan: Plan) {
    && plan.net.loops <= plan.ids && plan.reachable <= plan.ids && plan.parent.Keys <= plan.ids
    && (forall v :: v in plan.parent ==> plan.parent[v] in plan.net.loops)
    && !Cyclic(Parents(plan)) && !Cyclic(LinkRelation(plan.net))
    && (forall l :: l in plan.net.links ==> l.source in plan.ids && l.target in plan.ids && LinkAccepted(plan, l))
    && (forall l :: l in plan.net.links && l.target in plan.reachable ==> l.source in plan.reachable)
    && (forall v :: v in plan.reachable && v in plan.parent ==> plan.parent[v] in plan.reachable)
  }

  /** The nodes one walk handles: the reachable nodes of one frame. */
  function Members(plan: Plan, frame: Option<Id>): set<Id> {
    set v | v in plan.reachable && FrameOf(plan, v) == frame
  }

  /** The nodes whose container is itself in scope; a walk leaves them to that container. */
  function Hidden(plan: Plan, scope: set<Id>): set<Id> {
    set v | v in plan.parent && plan.parent[v] in scope * plan.net.loops
  }

  function Direct(plan: Plan, scope: set<Id>): set<Id> {
    scope * plan.reachable - Hidden(plan, scope)
  }

  /** The scope of a walk: everything reachable, or the body of one container. */
  function Scope(plan: Plan, frame: Option<Id>): set<Id> {
    if frame.None? then plan.reachable else Body(plan, frame.value)
  }

  /** The nodes the walk of one frame handles. */
  function Handled(plan: Plan, frame: Option<Id>): set<Id> {
    Direct(plan, Scope(plan, frame))
  }

  /** What any graph gives the engine, sound or not. */
  ghost predicate WellFormed(plan: Plan) {
    && plan.net.loops <= plan.ids && plan.reachable <= plan.ids
    && forall l :: l in plan.net.links ==> l.source in plan.ids && l.target in plan.ids
  }

  /** On a sound plan a walk handles exactly the reachable nodes of its frame. */
  lemma HandledAreMembers(plan: Plan, frame: Option<Id>)
    requires Sound(plan)
    ensures Handled(plan, frame) == Members(plan, frame)
  {
    if frame.Some? {
      var body := Body(plan, frame.value);
      forall v | v in body ensures v !in Hidden(plan, body) {
        if v in Hidden(plan, body) {
          assert (frame.value, frame.value) in Parents(plan);
          EdgePrecedes(Parents(plan), frame.value, frame.value);
        }
      }
    }
  }

  /** Containers whose rounds are open, from the outside in, and possibly one more node on top: each lies in the
      body of the one before it, and the first is one the outermost walk handles. */
  ghost predicate Nested(plan: Plan, chain: seq<Id>) {
    && Distinct(chain)
    && (forall k :: 0 <= k < |chain| ==> chain[k] in plan.reachable)
    && (forall k :: 0 <= k < |chain| - 1 ==> chain[k] in plan.net.loops && chain[k + 1] in Body(plan, chain[k]))
    && (chain != [] ==> chain[0] in Handled(plan, None))
  }

  /** Whatever the graph, going into one more body never meets an open container again: it would lie in the
      body of two containers, or the outermost walk would have left it to its container. */
  lemma OneDeeper(plan: Plan, chain: seq<Id>, v: Id)
    requires Nested(plan, chain) && (chain != [] ==> chain[|chain| - 1] in plan.net.loops)
    requires v in Handled(plan, if chain == [] then None else Some(chain[|chain| - 1]))
    ensures Nested(plan, chain + [v])
  {
    var longer := chain + [v];
    if chain != [] {
      assert v in plan.parent && plan.parent[v] == chain[|chain| - 1];
      forall j | 0 <= j < |chain| ensures chain[j] != v {
        if j > 0 { assert chain[j - 1 + 1] in Body(plan, chain[j - 1]); }
      }
    }
    forall k | 0 <= k < |longer| - 1 ensures longer[k] in plan.net.loops && longer[k + 1] in Body(plan, longer[k]) {
      if k < |chain| - 1 { assert chain[k + 1] in Body(plan, chain[k]); }
    }
  }

  lemma UnderStep(plan: Plan, c: Id, v: Id)
    requires v in plan.parent && (plan.parent[v] == c || Under(plan, c, plan.parent[v]))
    ensures Under(plan, c, v)
  {
    EdgePrecedes(Parents(plan), plan.parent[v], v);
    if plan.parent[v] != c { PrecedesTransitive(Parents(plan), c, plan.parent[v], v); }
  }

  /** What lies under a node is in another frame than the node, and is not the frame's own container. */
  lemma UnderLeavesFrame(plan: Plan, u: Id, v: Id)
    requires Sound(plan) && Under(plan, u, v)
    ensures v != u && FrameOf(plan, v) != FrameOf(plan, u) && FrameOf(plan, u) != Some(v)
  {
    var rel := Parents(plan);
    var w := LastEdge(rel, u, v);
    if FrameOf(plan, v) == FrameOf(plan, u) {
      EdgePrecedes(rel, w, u);
      if w != u { PrecedesTransitive(rel, u, w, u); }
    }
    if FrameOf(plan, u) == Some(v) {
      assert (v, u) in rel;
      EdgePrecedes(rel, v, u);
      PrecedesTransitive(rel, u, v, u);
    }
  }

  /** Where an edge into a frame may come from. */
  lemma SourcesOfFrame(plan: Plan, frame: Option<Id>, i: nat)
    requires Sound(plan) && i < |plan.net.links| && plan.net.links[i].target in Members(plan, frame)
    ensures plan.net.links[i].source in Members(plan, frame)
         || (frame == Some(plan.net.links[i].source) && plan.net.links[i].sourcePort == Each)
    ensures plan.net.links[i].source in plan.net.loops && plan.net.links[i].sourcePort == Each
         ==> plan.net.links[i].source !in Members(plan, frame)
  {
    var l := plan.net.links[i];
    assert l in plan.net.links;
    if FrameOf(plan, l.target) == Some(l.source) {
      assert plan.parent[l.target] in plan.net.loops;
      if l.source in Members(plan, frame) {
        assert (l.source, l.source) in Parents(plan);
        EdgePrecedes(Parents(plan), l.source, l.source);
      }
    }
  }

  lemma FrameEachLeaves(plan: Plan, frame: Option<Id>)
    requires Sound(plan)
    ensures EachLeavesWalk(plan.net, Members(plan, frame))
  {
    forall i | 0 <= i < |plan.net.links| && plan.net.links[i].source in Members(plan, frame) * plan.net.loops
               && plan.net.links[i].sourcePort == Each
      ensures plan.net.links[i].target !in Members(plan, frame)
    {
      if plan.net.links[i].target in Members(plan, frame) { SourcesOfFrame(plan, frame, i); }
    }
  }

  /** The states one handled node may leave behind, seen from its frame. */
  ghost predicate OnlyAtOrUnder(plan: Plan, u: Id, st: States, st': States) {
    && |st'| == |st| == |plan.net.links|
    && forall i :: 0 <= i < |st| ==>
        st'[i] == st[i] || plan.net.links[i].source == u || Under(plan, u, plan.net.links[i].source)
  }

  /** The states a whole walk of one frame may leave behind. */
  ghost predicate OnlyInFrame(plan: Plan, frame: Option<Id>, st: States, st': States) {
    && |st'| == |st| == |plan.net.links|
    && (frame.Some? ==> forall i :: 0 <= i < |st| ==>
        st'[i] == st[i] || Under(plan, frame.value, plan.net.links[i].source))
  }

  lemma FrameOnly(plan: Plan, frame: Option<Id>, u: Id, st: States, st': States)
    requires u in Handled(plan, frame) && OnlyAtOrUnder(plan, u, st, st')
    ensures OnlyInFrame(plan, frame, st, st')
  {
    if frame.Some? {
      UnderStep(plan, frame.value, u);
      forall i | 0 <= i < |st| && st'[i] != st[i] ensures Under(plan, frame.value, plan.net.links[i].source) {
        if plan.net.links[i].source != u {
          PrecedesTransitive(Parents(plan), frame.value, u, plan.net.links[i].source);
        }
      }
    }
  }

  lemma FrameEffect(plan: Plan, frame: Option<Id>, u: Id, st: States, st': States)
    requires Sound(plan) && u in Members(plan, frame) && OnlyAtOrUnder(plan, u, st, st')
    ensures forall i :: 0 <= i < |st| && plan.net.links[i].source in Members(plan, frame)
                        && plan.net.links[i].source != u
                        ==> st'[i] == st[i]
    ensures SameBoundary(plan.net, Members(plan, frame), st, st')
  {
    forall i | 0 <= i < |st| && st'[i] != st[i] && plan.net.links[i].source != u
      ensures plan.net.links[i].source !in Members(plan, frame)
      ensures plan.net.links[i].target !in Members(plan, frame)
    {
      UnderLeavesFrame(plan, u, plan.net.links[i].source);
      if plan.net.links[i].target in Members(plan, frame) { SourcesOfFrame(plan, frame, i); }
    }
  }

  /** Re-arming a body: its own edges wait again, its entry edges are live. */
  function Armed(plan: Plan, loop: Id, st: States): (armed: States)
    requires |st| == |plan.net.links|
    ensures |armed| == |st|
  {
    seq(|st|, i requires 0 <= i < |st| => ArmedLabel(plan, loop, i, st[i]))
  }

  function ArmedLabel(plan: Plan, loop: Id, i: nat, was: EdgeState): EdgeState
    requires i < |plan.net.links|
  {
    var l := plan.net.links[i];
    var fromLoop := l.source == loop && l.sourcePort == Each;
    if l.target !in Body(plan, loop) || !(l.source in Body(plan, loop) || fromLoop) then was
    else if fromLoop then Live else Pending
  }

  /** Arming resets every edge that counts for a node of the body: whatever the states were before,
      the walk of the body may start, and its boundary is the same. */
  lemma ArmingForgetsThePast(plan: Plan, loop: Id, a: States, b: States)
    requires Sound(plan) && |a| == |b| == |plan.net.links|
    ensures Startable(plan.net, Members(plan, Some(loop)), Armed(plan, loop, a))
    ensures forall i :: 0 <= i < |a| && plan.net.links[i].target in Members(plan, Some(loop))
              ==> Armed(plan, loop, a)[i] == Armed(plan, loop, b)[i]
  {
    var members := Members(plan, Some(loop));
    forall i | 0 <= i < |a| && plan.net.links[i].target in members
      ensures Armed(plan, loop, a)[i] == Armed(plan, loop, b)[i]
      ensures plan.net.links[i].source in members <==> Armed(plan, loop, a)[i] == Pending
    {
      SourcesOfFrame(plan, Some(loop), i);
      LoopNotInOwnBody(plan, loop);
    }
  }

  lemma LoopNotInOwnBody(plan: Plan, loop: Id)
    requires Sound(plan)
    ensures loop !in Body(plan, loop)
  {
    if loop in Body(plan, loop) {
      assert (loop, loop) in Parents(plan);
      EdgePrecedes(Parents(plan), loop, loop);
    }
  }

  lemma ArmEffect(plan: Plan, loop: Id, st: States)
    requires |st| == |plan.net.links|
    ensures OnlyAtOrUnder(plan, loop, st, Armed(plan, loop, st))
  {
    forall i | 0 <= i < |st| && Armed(plan, loop, st)[i] != st[i] && plan.net.links[i].source != loop
      ensures Under(plan, loop, plan.net.links[i].source)
    {
      UnderStep(plan, loop, plan.net.links[i].source);
    }
  }

  /** Two rounds of one container, at any depth and after any histories, run the same body nodes and label the
      edges of the body alike when the nodes that run in both give the same results. */
  lemma RoundsAreIndependent(plan: Plan, loop: Id, beforeA: States, a: States, ranA: map<Id, Option<set<Port>>>,
                             beforeB: States, b: States, ranB: map<Id, Option<set<Port>>>)
    requires Sound(plan) && |beforeA| == |beforeB| == |a| == |b| == |plan.net.links|
    requires Labelled(plan.net, Members(plan, Some(loop)), a, ranA)
    requires SameBoundary(plan.net, Members(plan, Some(loop)), Armed(plan, loop, beforeA), a)
    requires Labelled(plan.net, Members(plan, Some(loop)), b, ranB)
    requires SameBoundary(plan.net, Members(plan, Some(loop)), Armed(plan, loop, beforeB), b)
    requires forall v :: v in ranA && v in ranB ==> ranA[v] == ranB[v]
    ensures ranA == ranB
    ensures forall i :: 0 <= i < |a| && plan.net.links[i].source in Members(plan, Some(loop))
                        && !LeftToRounds(plan.net, ranA, i)
                        ==> a[i] == b[i]
  {
    ArmingForgetsThePast(plan, loop, beforeA, beforeB);
    FrameEachLeaves(plan, Some(loop));
    LabellingIsUnique(plan.net, Members(plan, Some(loop)), a, ranA, b, ranB);
  }
}
