/** From an accepted graph to a finished run: what the validator rejects is what the engine relies on. */
module Execution {
  import opened Digraph
  import opened ChannelGraph
  import opened CycleCheck
  import opened Ancestry
  import opened Frames
  import opened Labelling
  import opened Plan
  import opened Journal
  import opened EngineTypes
  import Engine

  /** No cycle, trigger, reachability or frame problem. */
  ghost predicate Accepted(g: Graph, catalog: Catalog) {
    && !Cyclic(Flow(g))
    && TriggerClean(g, catalog)
    && (forall n :: n in g.nodes ==> FromTrigger(g, catalog, n.id))
    && FrameClean(g, catalog)
  }

  /** The structural part of validation reports nothing exactly on accepted graphs. */
  method StructuralProblems(g: Graph, catalog: Catalog) returns (problems: seq<Problem>)
    ensures problems == [] <==> Accepted(g, catalog)
  {
    var triggers := TriggerProblems(g, catalog);
    var unreachable := ReachabilityProblems(g, catalog);
    var cycles := CycleProblems(g);
    var frames := FrameProblems(g, catalog);
    problems := triggers + unreachable + cycles + frames;
  }

  function LinksOf(edges: seq<Edge>, byId: map<Id, Node>): (links: seq<Link>)
    ensures forall l :: l in links <==>
      exists e :: e in edges && Known(byId, e) && l == Link(e.source, e.sourcePort, e.target, e.targetPort)
  {
    if edges == [] then []
    else
      var e := edges[|edges| - 1];
      var rest := LinksOf(edges[..|edges| - 1], byId);
      assert forall x :: x in edges <==> x in edges[..|edges| - 1] || x == e;
      if Known(byId, e) then rest + [Link(e.source, e.sourcePort, e.target, e.targetPort)] else rest
  }

  function NetOf(g: Graph, catalog: Catalog): Net {
    var byId := ById(g.nodes);
    Net(LinksOf(g.edges, byId), set id | id in byId && IsContainer(byId[id].kind, catalog))
  }

  function ParentMap(g: Graph): map<Id, Id> {
    var byId := ById(g.nodes);
    map id | id in byId && ParentRef(byId[id]).Some? && ParentRef(byId[id]).value in byId
        && ParentRef(byId[id]).value != id
      :: ParentRef(byId[id]).value
  }

  function PlanOf(g: Graph, catalog: Catalog, reachable: set<Id>): Plan {
    Plan(ById(g.nodes).Keys, NetOf(g, catalog), ParentMap(g), reachable)
  }

  lemma LinksAreFlow(g: Graph, catalog: Catalog)
    ensures LinkRelation(NetOf(g, catalog)) == Flow(g)
  {
    var net := NetOf(g, catalog);
    forall p | p in Flow(g) ensures p in LinkRelation(net) {
      var e :| e in g.edges && Known(ById(g.nodes), e) && p == (e.source, e.target);
      var l := Link(e.source, e.sourcePort, e.target, e.targetPort);
      assert l in net.links;
      var i :| 0 <= i < |net.links| && net.links[i] == l;
    }
    forall p | p in LinkRelation(net) ensures p in Flow(g) {
      var i :| 0 <= i < |net.links| && p == (net.links[i].source, net.links[i].target);
      assert net.links[i] in net.links;
    }
  }

  lemma ParentsKnown(g: Graph, catalog: Catalog, id: Id)
    requires FrameClean(g, catalog) && id in ById(g.nodes) && ParentRef(ById(g.nodes)[id]).Some?
    ensures ParentRef(ById(g.nodes)[id]).value in ById(g.nodes) && ParentRef(ById(g.nodes)[id]).value != id
    ensures IsContainer(ById(g.nodes)[ParentRef(ById(g.nodes)[id]).value].kind, catalog)
    ensures (ParentRef(ById(g.nodes)[id]).value, id) in ParentRelation(g)
  {
    var byId := ById(g.nodes);
    assert byId[id] in g.nodes;
    assert ParentAccepted(byId, catalog, byId[id]);
    if ParentRef(byId[id]).value == id {
      assert (id, id) in ParentRelation(g);
      EdgePrecedes(ParentRelation(g), id, id);
    }
  }

  lemma ParentsAgree(g: Graph, catalog: Catalog, reachable: set<Id>)
    requires FrameClean(g, catalog)
    ensures Parents(PlanOf(g, catalog, reachable)) == ParentRelation(g)
    ensures forall id ::
      id in ById(g.nodes) ==> FrameOf(PlanOf(g, catalog, reachable), id) == ParentRef(ById(g.nodes)[id])
  {
    var byId, plan := ById(g.nodes), PlanOf(g, catalog, reachable);
    forall id | id in byId ensures FrameOf(plan, id) == ParentRef(byId[id]) {
      if ParentRef(byId[id]).Some? { ParentsKnown(g, catalog, id); }
    }
    forall e ensures e in Parents(plan) <==> e in ParentRelation(g) {
      if e in ParentRelation(g) {
        ParentsKnown(g, catalog, e.1);
        assert e.1 in plan.parent;
      }
    }
  }

  /** On a frame-clean graph the ancestor walk skips nothing. */
  lemma NothingCrosses(g: Graph, catalog: Catalog)
    requires FrameClean(g, catalog)
    ensures FrameFlow(g) == Flow(g)
  {}

  /** From inside a container one cannot get out to it. */
  lemma NoWayOut(g: Graph, catalog: Catalog, c: Id, t: Id)
    requires FrameClean(g, catalog) && (c, t) in ParentRelation(g)
    ensures !Reaches(Flow(g), t, c)
  {
    var rel, flow := ParentRelation(g), Flow(g);
    EdgePrecedes(rel, c, t);
    if c != t && Precedes(flow, t, c) {
      var inside := set x | x in ById(g.nodes) && Precedes(rel, c, x);
      forall e | e in flow && e.0 in inside ensures e.1 in inside {
        FlowStaysInside(g, catalog, c, e.0, e.1);
      }
      var p :| PathBetween(flow, t, c, p);
      assert t in inside;
      ClosedUnderSuccessors(flow, inside, p);
    }
  }

  lemma AllFromTrigger(g: Graph, catalog: Catalog, t: Id)
    requires Accepted(g, catalog) && Triggers(g.nodes, catalog) == [t]
    ensures t in ById(g.nodes)
    ensures forall v :: v in ById(g.nodes) ==> Reaches(Flow(g), t, v)
  {
    SingleMember(Triggers(g.nodes, catalog), t, t);
    forall v | v in ById(g.nodes) ensures Reaches(Flow(g), t, v) {
      var n := ById(g.nodes)[v];
      assert n in g.nodes && n.id == v;
      assert FromTrigger(g, catalog, n.id);
      var s :| s in Triggers(g.nodes, catalog) && Reaches(Flow(g), s, v);
      SingleMember(Triggers(g.nodes, catalog), t, s);
    }
  }

  lemma SingleMember(ts: seq<Id>, t: Id, s: Id)
    requires ts == [t]
    ensures s in ts <==> s == t
  {}

  /** The trigger of an accepted graph lies in no container. */
  lemma TriggerIsTopLevel(g: Graph, catalog: Catalog, t: Id)
    requires Accepted(g, catalog) && Triggers(g.nodes, catalog) == [t]
    ensures t in ById(g.nodes) && ParentRef(ById(g.nodes)[t]) == None
  {
    AllFromTrigger(g, catalog, t);
    if ParentRef(ById(g.nodes)[t]).Some? {
      ParentsKnown(g, catalog, t);
      NoWayOut(g, catalog, ParentRef(ById(g.nodes)[t]).value, t);
    }
  }

  lemma FlowStaysInside(g: Graph, catalog: Catalog, c: Id, x: Id, y: Id)
    requires FrameClean(g, catalog) && (x, y) in Flow(g) && Precedes(ParentRelation(g), c, x)
    ensures Precedes(ParentRelation(g), c, y)
  {
    var byId, rel := ById(g.nodes), ParentRelation(g);
    var e :| e in g.edges && Known(byId, e) && (e.source, e.target) == (x, y);
    assert EdgeAccepted(byId, catalog, e);
    var w := LastEdge(rel, c, x);
    if ParentRef(byId[y]) == Some(x) {
      assert (x, y) in rel;
      EdgePrecedes(rel, x, y);
      PrecedesTransitive(rel, c, x, y);
    } else {
      assert (w, y) in rel;
      EdgePrecedes(rel, w, y);
      if w != c { PrecedesTransitive(rel, c, w, y); }
    }
  }

  /** A body is entered only through its container, so the container comes before everything in it. */
  lemma {:induction false} ContainerComesFirst(g: Graph, catalog: Catalog, p: seq<Id>)
    requires FrameClean(g, catalog) && IsPath(Flow(g), p) && p[0] in ById(g.nodes) && p[|p| - 1] in ById(g.nodes)
    requires ParentRef(ById(g.nodes)[p[0]]) == None && ParentRef(ById(g.nodes)[p[|p| - 1]]).Some?
    ensures Precedes(Flow(g), ParentRef(ById(g.nodes)[p[|p| - 1]]).value, p[|p| - 1])
    decreases |p|
  {
    var byId, flow := ById(g.nodes), Flow(g);
    var x, w := p[|p| - 1], p[|p| - 2];
    assert (p[|p| - 2], p[|p| - 1]) in flow;
    var e :| e in g.edges && Known(byId, e) && (e.source, e.target) == (w, x);
    assert EdgeAccepted(byId, catalog, e);
    EdgePrecedes(flow, w, x);
    if ParentRef(byId[x]) != Some(w) {
      ContainerComesFirst(g, catalog, p[..|p| - 1]);
      PrecedesTransitive(flow, ParentRef(byId[x]).value, w, x);
    }
  }

  /** The sets a run may be cut to: everything, nothing, or what reaches the stop node. */
  ghost predicate IsCut(g: Graph, reachable: set<Id>) {
    reachable <= ById(g.nodes).Keys &&
    forall u, v :: v in reachable && u in ById(g.nodes) && Precedes(Flow(g), u, v) ==> u in reachable
  }

  lemma LinkIsAccepted(g: Graph, catalog: Catalog, reachable: set<Id>, l: Link)
    requires FrameClean(g, catalog) && l in NetOf(g, catalog).links
    ensures var plan := PlanOf(g, catalog, reachable);
      l.source in plan.ids && l.target in plan.ids && LinkAccepted(plan, l) && (l.source, l.target) in Flow(g)
  {
    var byId := ById(g.nodes);
    ParentsAgree(g, catalog, reachable);
    var e :| e in g.edges && Known(byId, e) && l == Link(e.source, e.sourcePort, e.target, e.targetPort);
    assert EdgeAccepted(byId, catalog, e);
  }

  lemma ParentInCut(g: Graph, catalog: Catalog, t: Id, reachable: set<Id>, v: Id)
    requires Accepted(g, catalog) && Triggers(g.nodes, catalog) == [t] && IsCut(g, reachable)
    requires v in reachable && ParentRef(ById(g.nodes)[v]).Some?
    ensures ParentRef(ById(g.nodes)[v]).value in reachable
  {
    AllFromTrigger(g, catalog, t);
    TriggerIsTopLevel(g, catalog, t);
    ParentsKnown(g, catalog, v);
    assert t != v && Reaches(Flow(g), t, v);
    var p :| PathBetween(Flow(g), t, v, p);
    ContainerComesFirst(g, catalog, p);
  }

  lemma LinksOfCut(g: Graph, catalog: Catalog, reachable: set<Id>)
    requires FrameClean(g, catalog) && IsCut(g, reachable)
    ensures var plan := PlanOf(g, catalog, reachable);
      && (forall l :: l in plan.net.links ==> l.source in plan.ids && l.target in plan.ids && LinkAccepted(plan, l))
      && (forall l :: l in plan.net.links && l.target in reachable ==> l.source in reachable)
  {
    forall l | l in NetOf(g, catalog).links
      ensures l.source in ById(g.nodes) && l.target in ById(g.nodes) && LinkAccepted(PlanOf(g, catalog, reachable), l)
      ensures l.target in reachable ==> l.source in reachable
    {
      LinkIsAccepted(g, catalog, reachable, l);
      EdgePrecedes(Flow(g), l.source, l.target);
    }
  }

  lemma ParentsOfCut(g: Graph, catalog: Catalog, t: Id, reachable: set<Id>)
    requires Accepted(g, catalog) && Triggers(g.nodes, catalog) == [t] && IsCut(g, reachable)
    ensures var plan := PlanOf(g, catalog, reachable);
      && (forall v :: v in plan.parent ==> plan.parent[v] in plan.net.loops)
      && (forall v :: v in reachable && v in plan.parent ==> plan.parent[v] in reachable)
  {
    forall v | v in ParentMap(g)
      ensures ParentMap(g)[v] in NetOf(g, catalog).loops
      ensures v in reachable ==> ParentMap(g)[v] in reachable
    {
      ParentsKnown(g, catalog, v);
      if v in reachable { ParentInCut(g, catalog, t, reachable, v); }
    }
  }

  /** An accepted graph cut to a backward-closed set is sound for the engine. */
  lemma AcceptedIsSound(g: Graph, catalog: Catalog, t: Id, reachable: set<Id>)
    requires Accepted(g, catalog) && Triggers(g.nodes, catalog) == [t] && IsCut(g, reachable)
    ensures Sound(PlanOf(g, catalog, reachable))
  {
    ParentsAgree(g, catalog, reachable);
    LinksAreFlow(g, catalog);
    LinksOfCut(g, catalog, reachable);
    ParentsOfCut(g, catalog, t, reachable);
  }

  lemma LinkInto(g: Graph, catalog: Catalog, w: Id, v: Id) returns (i: nat)
    requires (w, v) in Flow(g)
    ensures var net := NetOf(g, catalog); i < |net.links| && net.links[i].source == w && net.links[i].target == v
  {
    LinksAreFlow(g, catalog);
    var net := NetOf(g, catalog);
    i :| 0 <= i < |net.links| && (w, v) == (net.links[i].source, net.links[i].target);
  }

  ghost predicate StartsRoot(plan: Plan, t: Id) {
    var members := Members(plan, None);
    && (t in members || members == {})
    && forall v :: v in members && v != t ==> Waits(plan.net, members, v)
  }

  /** The trigger starts the outermost frame: every other member waits for a member. */
  lemma TriggerStartsRoot(g: Graph, catalog: Catalog, t: Id, reachable: set<Id>)
    requires Accepted(g, catalog) && Triggers(g.nodes, catalog) == [t] && IsCut(g, reachable)
    ensures StartsRoot(PlanOf(g, catalog, reachable), t)
  {
    var plan := PlanOf(g, catalog, reachable);
    var members := Members(plan, None);
    AcceptedIsSound(g, catalog, t, reachable);
    forall v | v in members && v != t ensures t in members && Waits(plan.net, members, v) {
      TriggerIsMember(g, catalog, t, reachable, v);
      MemberWaits(g, catalog, t, reachable, v);
    }
  }

  lemma TriggerIsMember(g: Graph, catalog: Catalog, t: Id, reachable: set<Id>, v: Id)
    requires Accepted(g, catalog) && Triggers(g.nodes, catalog) == [t] && IsCut(g, reachable)
    requires v in Members(PlanOf(g, catalog, reachable), None) && v != t
    ensures t in Members(PlanOf(g, catalog, reachable), None) && Precedes(Flow(g), t, v)
  {
    hide Flow, Precedes, TriggerClean, FromTrigger, FrameClean;
    AllFromTrigger(g, catalog, t);
    TriggerIsTopLevel(g, catalog, t);
    ParentsAgree(g, catalog, reachable);
    assert Reaches(Flow(g), t, v) && t in reachable;
  }

  lemma MemberWaits(g: Graph, catalog: Catalog, t: Id, reachable: set<Id>, v: Id)
    requires Accepted(g, catalog) && IsCut(g, reachable) && v != t && Precedes(Flow(g), t, v)
    requires Sound(PlanOf(g, catalog, reachable)) && v in Members(PlanOf(g, catalog, reachable), None)
    ensures Waits(PlanOf(g, catalog, reachable).net, Members(PlanOf(g, catalog, reachable), None), v)
  {
    var w := LastEdge(Flow(g), t, v);
    var i := LinkInto(g, catalog, w, v);
    SourcesOfFrame(PlanOf(g, catalog, reachable), None, i);
  }

  lemma PendingIsStartable(plan: Plan)
    requires Sound(plan)
    ensures Startable(plan.net, Members(plan, None), seq(|plan.net.links|, i => Pending))
  {
    forall i, v | 0 <= i < |plan.net.links| && v in Members(plan, None) && Counts(plan.net, v, i)
      ensures plan.net.links[i].source in Members(plan, None)
    {
      SourcesOfFrame(plan, None, i);
    }
  }

  /** What a run is cut to: the nodes its trigger reaches, and of those the ones that reach the stop node without
      crossing a frame. */
  ghost predicate IsReach(g: Graph, t: Id, stopAt: Option<Id>, reachable: set<Id>) {
    forall v :: v in reachable <==>
      Reaches(Flow(g), t, v) && (stopAt.Some? ==>
          stopAt.value in ById(g.nodes) && Reaches(FrameFlow(g), v, stopAt.value))
  }

  method Reachable(g: Graph, t: Id, stopAt: Option<Id>) returns (reachable: set<Id>)
    requires t in ById(g.nodes)
    ensures IsReach(g, t, stopAt, reachable) && reachable <= ById(g.nodes).Keys
  {
    reachable := ReachableFrom(g, [t]);
    forall v ensures v in reachable <==> Reaches(Flow(g), t, v) {
      ReachedFromOne(g, t, v);
    }
    forall v | v in reachable ensures v in ById(g.nodes) {
      if v != t { var w := LastEdge(Flow(g), t, v); }
    }
    if stopAt.Some? {
      var closure := AncestorClosure(g, stopAt.value);
      reachable := if closure.Some? then reachable * closure.value else {};
    }
  }

  /** On an accepted graph that is everything, or exactly what reaches the stop node; either way nothing that leads
      to a node of it is left out. */
  lemma ReachIsCut(g: Graph, catalog: Catalog, t: Id, stopAt: Option<Id>, reachable: set<Id>)
    requires Accepted(g, catalog) && Triggers(g.nodes, catalog) == [t] && IsReach(g, t, stopAt, reachable)
    ensures IsCut(g, reachable)
    ensures stopAt.None? ==> reachable == ById(g.nodes).Keys
    ensures stopAt.Some? ==> CutAt(g, stopAt.value, reachable)
  {
    hide Precedes, TriggerClean, FromTrigger, FrameClean, FrameFlow;
    AllFromTrigger(g, catalog, t);
    NothingCrosses(g, catalog);
    forall v | Reaches(Flow(g), t, v) ensures v in ById(g.nodes) {
      if v != t { var w := LastEdge(Flow(g), t, v); }
    }
    hide Flow;
    if stopAt.Some? {
      forall u, v | v in reachable && u in ById(g.nodes) && Precedes(Flow(g), u, v) ensures u in reachable {
        if v != stopAt.value { PrecedesTransitive(Flow(g), u, v, stopAt.value); }
      }
      forall u | u in ById(g.nodes) && Reaches(Flow(g), u, stopAt.value) ensures Reaches(Flow(g), t, u) {}
    }
  }

  /** Exactly the known nodes that reach the stop node. */
  ghost predicate CutAt(g: Graph, stop: Id, reachable: set<Id>) {
    forall u :: u in reachable <==> stop in ById(g.nodes) && u in ById(g.nodes) && Reaches(Flow(g), u, stop)
  }

  lemma ReachedFromOne(g: Graph, t: Id, v: Id)
    ensures ReachedFrom(g, [t], v) <==> Reaches(Flow(g), t, v)
  {
    if Reaches(Flow(g), t, v) { assert t in [t]; }
  }

  lemma PlanIsWellFormed(g: Graph, catalog: Catalog, reachable: set<Id>)
    requires reachable <= ById(g.nodes).Keys
    ensures WellFormed(PlanOf(g, catalog, reachable))
  {}

  /** Everything a run recorded, however it ended: it replays with nothing left open, only reachable nodes started,
      and in the outermost frame and in every round at any depth the starts are in order. A run that failed at a
      node names one that was started and whose result ends the run. */
  ghost predicate IsRun(rules: Rules, reachable: set<Id>, outcome: RunOutcome, log: seq<Event>) {
    && Replay(log).Some? && Replay(log).value.open == [] && StartsWithin(log, reachable)
    && (forall at :: InBlocks(rules, StartsAt(log, at)))
    && Blamed(rules, outcome, log)
  }

  lemma EveryPlaceInOrder(rules: Rules, log: seq<Event>, blocks: seq<Block>)
    requires Extended(rules, [], log, 0, None, Executions(blocks)) && Orderly(rules, blocks)
    ensures StartsAt(log, None) == Executions(blocks)
    ensures forall at :: InBlocks(rules, StartsAt(log, at))
  {
    assert [] + Executions(blocks) == Executions(blocks);
    forall at ensures InBlocks(rules, StartsAt(log, at)) {
      if at == None {
        assert StartsAt(log, at) == Executions(blocks);
      } else if Earlier(at, 0) {
        assert StartsAt(log, at) == StartsAt([], at) == [];
        NothingStarted(rules);
      }
    }
  }

  /** One run of any plan; of an accepted one it must start at a node that starts the outermost frame. */
  method RunPlan(plan: Plan, settings: map<Id, Settings>, outside: Outside, t: Id, ghost accepted: bool)
    returns (outcome: RunOutcome, log: seq<Event>, state: States, ghost blocks: seq<Block>,
             ghost ran: map<Id, NodeResult>, ghost rest: map<Id, Rest>)
    requires WellFormed(plan) && settings.Keys == plan.ids && (accepted ==> Sound(plan) && StartsRoot(plan, t))
    ensures IsRun(Rules(plan.net.loops, settings, outside), plan.reachable, outcome, log)
    ensures |state| == |plan.net.links| && StartsAt(log, None) == Executions(blocks)
    ensures outcome.status == Succeeded ==> Accounted(Rules(plan.net.loops, settings, outside), blocks, ran)
    ensures outcome.status == Succeeded && accepted ==> Labelled(plan.net, Members(plan, None), state, PortsOf(ran))
    ensures outcome.status == Succeeded ==> RestsRecorded(Rules(plan.net.loops, settings, outside), log, rest)
    ensures outcome.status == Succeeded && accepted ==> AllAtRest(plan, state, rest, [])
  {
    var run := new Engine.Run(plan, settings, outside, accepted);
    if accepted { PendingIsStartable(plan); }
    assert Nodes([]) == [];
    var stopped;
    stopped, ran, blocks := run.Walk(plan.reachable, Some(t), []);
    EveryPlaceInOrder(run.TheRules(), run.log, blocks);
    log, state, rest := run.log, run.state, run.rest;
    outcome := if stopped.Some? then stopped.value else RunOutcome(Succeeded, NoFault, None, None, run.skipped);
  }

  ghost function RulesOf(g: Graph, catalog: Catalog, settings: map<Id, Settings>, outside: Outside): Rules {
    Rules(NetOf(g, catalog).loops, settings, outside)
  }

  /** What a run that succeeded leaves: its record, its edge states, what it was cut to, what was started in the
      outermost frame, what ran there, and the last round of every container that had one. */
  datatype Completed = Completed(log: seq<Event>, state: States, reachable: set<Id>, blocks: seq<Block>,
                                 ran: map<Id, NodeResult>, rest: map<Id, Rest>)

  /** Exactly the nodes of `ran` were started in the outermost frame, each in one block of attempts, and each left
      its last result under its policy; they are the nodes the labelling rule says run. Every body waits as at the
      beginning or carries the labelling of its container's last round, whose nodes left their last results too. */
  ghost predicate IsCompleted(g: Graph, catalog: Catalog, rules: Rules, t: Id, stopAt: Option<Id>, r: Completed) {
    && IsReach(g, t, stopAt, r.reachable) && |r.state| == |NetOf(g, catalog).links|
    && StartsAt(r.log, None) == Executions(r.blocks) && Accounted(rules, r.blocks, r.ran)
    && Labelled(NetOf(g, catalog), Members(PlanOf(g, catalog, r.reachable), None), r.state, PortsOf(r.ran))
    && RestsRecorded(rules, r.log, r.rest) && AllAtRest(PlanOf(g, catalog, r.reachable), r.state, r.rest, [])
  }

  /** One run of any graph: it ends, and what it recorded is in order. On an accepted graph a run that succeeds is
      complete. */
  method Execute(g: Graph, catalog: Catalog, settings: map<Id, Settings>, outside: Outside, t: Id, stopAt: Option<Id>)
    returns (outcome: RunOutcome, log: seq<Event>, state: States, ghost reachable: set<Id>, ghost blocks: seq<Block>,
             ghost ran: map<Id, NodeResult>, ghost rest: map<Id, Rest>)
    requires settings.Keys == ById(g.nodes).Keys
    ensures t !in ById(g.nodes) ==> outcome == RunOutcome(Cancelled, TriggerInvalid, None, None, []) && log == []
    ensures t in ById(g.nodes) ==>
      IsReach(g, t, stopAt, reachable) && IsRun(RulesOf(g, catalog, settings, outside), reachable, outcome, log)
    ensures outcome.status == Succeeded ==>
      StartsAt(log, None) == Executions(blocks) && Accounted(RulesOf(g, catalog, settings, outside), blocks, ran)
    ensures outcome.status == Succeeded && Accepted(g, catalog) && Triggers(g.nodes, catalog) == [t] ==>
      IsCompleted(g, catalog, RulesOf(g, catalog, settings, outside), t, stopAt,
                  Completed(log, state, reachable, blocks, ran, rest))
  {
    hide TriggerClean, FromTrigger, FrameClean, Flow, FrameFlow, Labelled, Accounted, IsRun, AllAtRest, RestsRecorded;
    if t !in ById(g.nodes) {
      return RunOutcome(Cancelled, TriggerInvalid, None, None, []), [], [], {}, [], map[], map[];
    }
    var within := Reachable(g, t, stopAt);
    reachable := within;
    PlanIsWellFormed(g, catalog, within);
    ghost var accepted := Accepted(g, catalog) && Triggers(g.nodes, catalog) == [t];
    if accepted {
      ReachIsCut(g, catalog, t, stopAt, within);
      AcceptedIsSound(g, catalog, t, within);
      TriggerStartsRoot(g, catalog, t, within);
    }
    outcome, log, state, blocks, ran, rest := RunPlan(PlanOf(g, catalog, within), settings, outside, t, accepted);
  }

  /** One graph, its nodes and edges listed in any order. */
  ghost predicate SameGraph(a: Graph, b: Graph) {
    && DistinctIds(a.nodes) && DistinctIds(b.nodes)
    && (forall n :: n in a.nodes <==> n in b.nodes) && (forall e :: e in a.edges <==> e in b.edges)
  }

  lemma SameWiring(a: Graph, b: Graph, catalog: Catalog)
    requires SameGraph(a, b)
    ensures ById(a.nodes) == ById(b.nodes) && Flow(a) == Flow(b) && FrameFlow(a) == FrameFlow(b)
    ensures SameEdges(NetOf(a, catalog), NetOf(b, catalog)) && ParentMap(a) == ParentMap(b)
  {
    ReorderedIndex(a.nodes, b.nodes);
  }

  lemma SameReach(a: Graph, b: Graph, catalog: Catalog, t: Id, stopAt: Option<Id>, x: set<Id>, y: set<Id>)
    requires SameGraph(a, b) && IsReach(a, t, stopAt, x) && IsReach(b, t, stopAt, y)
    ensures x == y && Members(PlanOf(a, catalog, x), None) == Members(PlanOf(b, catalog, y), None)
  {
    SameWiring(a, b, catalog);
    forall v ensures v in x <==> v in y {}
  }

  /** The outermost frame is entered from nowhere. */
  lemma NothingEntersRoot(plan: Plan, netB: Net, a: States, b: States)
    requires Sound(plan) && |a| == |plan.net.links| && |b| == |netB.links|
    ensures BoundaryAlike(plan.net, netB, Members(plan, None), a, b)
  {
    forall i | 0 <= i < |a| && plan.net.links[i].target in Members(plan, None)
      ensures plan.net.links[i].source in Members(plan, None)
    {
      SourcesOfFrame(plan, None, i);
    }
  }

  /** Two completed runs of one accepted graph, whatever the order of its lists, the canvas positions, the retries,
      the rounds and the timing were: if each node that ran in both after the same past left the same result, then
      the same nodes ran with the same results and every edge of the outermost frame ended alike. */
  lemma OrderDoesNotMatter(g: Graph, h: Graph, catalog: Catalog, t: Id, stopAt: Option<Id>,
                           a: Rules, x: Completed, b: Rules, y: Completed)
    requires SameGraph(g, h) && Accepted(g, catalog) && Triggers(g.nodes, catalog) == [t]
    requires IsCompleted(g, catalog, a, t, stopAt, x) && IsCompleted(h, catalog, b, t, stopAt, y)
    requires FromThePast(Flow(g), x.ran, y.ran)
    ensures x.reachable == y.reachable && x.ran == y.ran
    ensures EdgesAlike(NetOf(g, catalog), NetOf(h, catalog), Members(PlanOf(g, catalog, x.reachable), None),
                       x.state, y.state, x.ran)
  {
    hide AllAtRest, RestsRecorded, Accounted;
    var plan, netB := PlanOf(g, catalog, x.reachable), NetOf(h, catalog);
    SameWiring(g, h, catalog);
    SameReach(g, h, catalog, t, stopAt, x.reachable, y.reachable);
    ReachIsCut(g, catalog, t, stopAt, x.reachable);
    AcceptedIsSound(g, catalog, t, x.reachable);
    LinksAreFlow(g, catalog);
    FrameEachLeaves(plan, None);
    NothingEntersRoot(plan, netB, x.state, y.state);
    LabellingsAgree(plan.net, netB, Members(plan, None), x.state, x.ran, y.state, y.ran);
  }

  /** The same for the body of any container, at any depth, that had a complete round in both runs or in neither. */
  lemma OrderDoesNotMatterInBodies(g: Graph, h: Graph, catalog: Catalog, t: Id, stopAt: Option<Id>,
                                   a: Rules, x: Completed, b: Rules, y: Completed, loop: Id)
    requires SameGraph(g, h) && Accepted(g, catalog) && Triggers(g.nodes, catalog) == [t]
    requires IsCompleted(g, catalog, a, t, stopAt, x) && IsCompleted(h, catalog, b, t, stopAt, y)
    requires loop in NetOf(g, catalog).loops && (loop in x.rest <==> loop in y.rest)
    requires loop in x.rest ==> FromThePast(Flow(g), x.rest[loop].ran, y.rest[loop].ran)
    ensures RanIn(x, Some(loop)) == RanIn(y, Some(loop))
    ensures EdgesAlike(NetOf(g, catalog), NetOf(h, catalog), Members(PlanOf(g, catalog, x.reachable), Some(loop)),
                       x.state, y.state, RanIn(x, Some(loop)))
  {
    hide RestsRecorded, Accounted;
    SameWiring(g, h, catalog);
    SameReach(g, h, catalog, t, stopAt, x.reachable, y.reachable);
    ReachIsCut(g, catalog, t, stopAt, x.reachable);
    AcceptedIsSound(g, catalog, t, x.reachable);
    LinksAreFlow(g, catalog);
    BodiesAgree(PlanOf(g, catalog, x.reachable), PlanOf(h, catalog, y.reachable), loop,
                x.state, x.rest, y.state, y.rest);
  }

  /** What ran in a frame: in the outermost one, or in the last round of a container. */
  function RanIn(r: Completed, frame: Option<Id>): map<Id, NodeResult> {
    if frame.None? then r.ran else if frame.value in r.rest then r.rest[frame.value].ran else map[]
  }

  /** Both runs walked the frame, or neither did. */
  predicate BothOrNeither(x: Completed, y: Completed, frame: Option<Id>) {
    frame.Some? ==> (frame.value in x.rest <==> frame.value in y.rest)
  }

  /** When executions give the same results whatever their numbers, any two completed runs of one accepted graph run
      the same nodes with the same results and label every edge alike, in every frame both walked or neither did. */
  lemma RunsRepeat(g: Graph, h: Graph, catalog: Catalog, t: Id, stopAt: Option<Id>,
                   a: Rules, x: Completed, b: Rules, y: Completed, frame: Option<Id>)
    requires SameGraph(g, h) && Accepted(g, catalog) && Triggers(g.nodes, catalog) == [t] && SameConduct(a, b)
    requires IsCompleted(g, catalog, a, t, stopAt, x) && IsCompleted(h, catalog, b, t, stopAt, y)
    requires BothOrNeither(x, y, frame) && (frame.Some? ==> frame.value in NetOf(g, catalog).loops)
    ensures RanIn(x, frame) == RanIn(y, frame)
    ensures EdgesAlike(NetOf(g, catalog), NetOf(h, catalog), Members(PlanOf(g, catalog, x.reachable), frame),
                       x.state, y.state, RanIn(x, frame))
  {
    if frame.None? {
      SameResults(a, b, x.blocks, x.ran, y.blocks, y.ran);
      OrderDoesNotMatter(g, h, catalog, t, stopAt, a, x, b, y);
    } else {
      var loop := frame.value;
      if loop in x.rest {
        SameResults(a, b, x.rest[loop].blocks, x.rest[loop].ran, y.rest[loop].blocks, y.rest[loop].ran);
      }
      OrderDoesNotMatterInBodies(g, h, catalog, t, stopAt, a, x, b, y, loop);
    }
  }

  const T := Id("t")
  const LOOP := Id("loop")
  const BODY := Id("body")

  function SmallNodes(): seq<Node> {
    [Node(T, "start", "Start", "trigger", NoParent), Node(LOOP, "each", "Each", "loop", NoParent),
     Node(BODY, "work", "Work", "leaf", ParentText(LOOP))]
  }

  function SmallEdges(): seq<Edge> {
    [Edge("1", T, Main, LOOP, Main), Edge("2", LOOP, Each, BODY, Main)]
  }

  const SMALL_CATALOG: Catalog := map["trigger" := NodeType(true, false, false), "loop" := NodeType(false, true, false)]

  lemma SmallIndex()
    ensures ById(SmallNodes()) == map[T := SmallNodes()[0], LOOP := SmallNodes()[1], BODY := SmallNodes()[2]]
    ensures T != LOOP && LOOP != BODY && T != BODY
  {
    assert |T.text| == 1 && T.text != LOOP.text && LOOP.text[0] == 'l' && BODY.text[0] == 'b';
    var s := SmallNodes();
    assert s[..2][..1][..0] == [] && s[..2][..1] == [s[0]] && s[..2] == [s[0], s[1]];
    assert ById(s[..2][..1]) == map[T := s[0]];
    assert ById(s[..2]) == map[T := s[0], LOOP := s[1]];
  }

  /** Accepted graphs exist: a trigger, a container it starts, and a node in the container's body. */
  lemma SmallLoopIsAccepted()
    ensures Accepted(Graph(SmallNodes(), SmallEdges()), SMALL_CATALOG)
    ensures Triggers(SmallNodes(), SMALL_CATALOG) == [T]
  {
    SmallIndex();
    SmallFlow();
    SmallTrigger();
    SmallFrames();
  }

  lemma SmallFlow()
    ensures Flow(Graph(SmallNodes(), SmallEdges())) == {(T, LOOP), (LOOP, BODY)}
    ensures !Cyclic(Flow(Graph(SmallNodes(), SmallEdges())))
  {
    SmallIndex();
    var g := Graph(SmallNodes(), SmallEdges());
    assert SmallEdges()[0] in g.edges && SmallEdges()[1] in g.edges;
    assert Flow(g) == {(T, LOOP), (LOOP, BODY)};
    assert Ranks(Flow(g), map[T := 0, LOOP := 1, BODY := 2]);
    AcyclicIffRanked(Flow(g));
  }

  lemma OneMoreNode(nodes: seq<Node>, n: Node, catalog: Catalog)
    ensures Triggers(nodes + [n], catalog) == Triggers(nodes, catalog) + (if IsTrigger(n, catalog) then [n.id] else [])
  {
    assert (nodes + [n])[..|nodes|] == nodes;
  }

  lemma SmallTrigger()
    ensures Triggers(SmallNodes(), SMALL_CATALOG) == [T]
    ensures TriggerClean(Graph(SmallNodes(), SmallEdges()), SMALL_CATALOG)
    ensures forall n :: n in SmallNodes() ==> FromTrigger(Graph(SmallNodes(), SmallEdges()), SMALL_CATALOG, n.id)
  {
    OnlyTrigger();
    NothingIntoTrigger();
    forall n | n in SmallNodes() ensures FromTrigger(Graph(SmallNodes(), SmallEdges()), SMALL_CATALOG, n.id) {
      SmallReach(n);
    }
  }

  lemma OnlyTrigger()
    ensures Triggers(SmallNodes(), SMALL_CATALOG) == [T]
  {
    var a, b, c := SmallNodes()[0], SmallNodes()[1], SmallNodes()[2];
    assert IsTrigger(a, SMALL_CATALOG) && !IsTrigger(b, SMALL_CATALOG) && !IsTrigger(c, SMALL_CATALOG);
    OneMoreNode([], a, SMALL_CATALOG);
    OneMoreNode([a], b, SMALL_CATALOG);
    OneMoreNode([a, b], c, SMALL_CATALOG);
    assert [] + [a] == [a] && [a] + [b] == [a, b] && [a, b] + [c] == SmallNodes();
  }

  lemma NothingIntoTrigger()
    ensures NoEdgeIntoTrigger(SmallEdges(), ById(SmallNodes()), SMALL_CATALOG)
  {
    SmallIndex();
    forall e | e in SmallEdges() ensures !IsTrigger(ById(SmallNodes())[e.target], SMALL_CATALOG) {
      assert e == SmallEdges()[0] || e == SmallEdges()[1];
    }
  }

  lemma SmallReach(n: Node)
    requires n in SmallNodes()
    ensures Reaches(Flow(Graph(SmallNodes(), SmallEdges())), T, n.id)
  {
    SmallFlow();
    var flow := Flow(Graph(SmallNodes(), SmallEdges()));
    EdgePrecedes(flow, T, LOOP);
    EdgePrecedes(flow, LOOP, BODY);
    PrecedesTransitive(flow, T, LOOP, BODY);
  }

  lemma SmallFrames()
    ensures FrameClean(Graph(SmallNodes(), SmallEdges()), SMALL_CATALOG)
  {
    SmallParents();
    forall n | n in SmallNodes() ensures ParentAccepted(ById(SmallNodes()), SMALL_CATALOG, n) {
      SmallParentAccepted(n);
    }
    forall e | e in SmallEdges() ensures EdgeAccepted(ById(SmallNodes()), SMALL_CATALOG, e) {
      SmallEdgeAccepted(e);
    }
  }

  lemma SmallParentAccepted(n: Node)
    requires n in SmallNodes()
    ensures ParentAccepted(ById(SmallNodes()), SMALL_CATALOG, n)
  {
    SmallIndex();
    var s := SmallNodes();
    assert n == s[0] || n == s[1] || n == s[2];
  }

  lemma SmallEdgeAccepted(e: Edge)
    requires e in SmallEdges()
    ensures EdgeAccepted(ById(SmallNodes()), SMALL_CATALOG, e)
  {
    SmallIndex();
    assert e == SmallEdges()[0] || e == SmallEdges()[1];
  }

  lemma SmallParents()
    ensures !Cyclic(ParentRelation(Graph(SmallNodes(), SmallEdges())))
  {
    SmallIndex();
    var rel := ParentRelation(Graph(SmallNodes(), SmallEdges()));
    var s := SmallNodes();
    assert ParentRef(s[0]) == None && ParentRef(s[1]) == None && ParentRef(s[2]) == Some(LOOP) by {
      assert LOOP.text != "";
    }
    forall e | e in rel ensures e == (LOOP, BODY) {}
    assert Ranks(rel, map[LOOP := 0, BODY := 1]);
    AcyclicIffRanked(rel);
  }
}
