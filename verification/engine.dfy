/** The engine: an explicit-stack walk per frame, retries, error policies, and containers whose rounds
    walk their body again. */
module Engine {
  import opened Digraph
  import opened ChannelGraph
  import opened Labelling
  import opened Plan
  import opened Journal
  import opened EngineTypes

  class Run {
    const plan: Plan
    const settings: map<Id, Settings>
    const outside: Outside
    ghost const accepted: bool
    var state: States
    var skipped: seq<Id>
    var produced: map<Id, Value>
    var ranStack: seq<set<Id>>
    var frames: seq<(nat, nat)>
    var log: seq<Event>
    var started: nat
    var polls: nat
    ghost var rest: map<Id, Rest>

    constructor (plan: Plan, settings: map<Id, Settings>, outside: Outside, ghost accepted: bool)
      requires WellFormed(plan) && settings.Keys == plan.ids && (accepted ==> Sound(plan))
      ensures this.plan == plan && this.settings == settings && this.outside == outside && this.accepted == accepted
      ensures Formed() && Shaped() && Recorded([]) && FramesFit([])
      ensures state == seq(|plan.net.links|, i => Pending)
      ensures Rests([]) && ranStack == [{}] && frames == [] && skipped == [] && log == [] && started == 0
    {
      this.plan, this.settings, this.outside, this.accepted := plan, settings, outside, accepted;
      state := seq(|plan.net.links|, i => Pending);
      skipped, produced, ranStack, frames, log, started, polls := [], map[], [{}], [], [], 0, 0;
      rest := map[];
    }

    /** The unchanging part: any graph whatever, with settings for its nodes. Where the graph was accepted, the walks
        promise more. */
    ghost predicate Formed() {
      WellFormed(plan) && settings.Keys == plan.ids && (accepted ==> Sound(plan))
    }

    ghost function TheRules(): Rules {
      Rules(plan.net.loops, settings, outside)
    }

    ghost predicate Shaped() reads this`state, this`ranStack {
      |state| == |plan.net.links| && ranStack != []
    }

    /** The record so far replays to exactly these open executions. */
    ghost predicate Recorded(open: seq<Open>) reads this`log, this`started {
      Replay(log) == Some(Replayed(started, open)) && StartsWithin(log, plan.reachable)
    }

    /** Every body outside the open rounds is at rest, as its last complete round left it. */
    ghost predicate Rests(open: seq<Open>) reads this`state, this`rest, this`log {
      && RestsRecorded(TheRules(), log, rest)
      && (accepted ==> |state| == |plan.net.links| && AllAtRest(plan, state, rest, Nodes(open)))
    }

    /** The frame stack names the innermost open round. */
    ghost predicate FramesFit(open: seq<Open>) reads this`frames {
      MayStart(open) && Context(open) == if frames == [] then None else Some(frames[|frames| - 1])
    }

    /** u may be started inside the open executions. */
    ghost predicate MayRun(open: seq<Open>, u: Id) {
      Nested(plan, Nodes(open) + [u])
    }

    /** What is left to go into. Every open container takes one node from it. */
    ghost function Unopened(open: seq<Open>): set<Id> {
      plan.ids - Elements(Nodes(open))
    }

    lemma OpenOneMore(open: seq<Open>, last: Open)
      requires Formed() && MayRun(open, last.node)
      ensures Nodes(open + [last]) == Nodes(open) + [last.node] && Unopened(open + [last]) < Unopened(open)
    {
      var chain := Nodes(open);
      assert Nodes(open + [last]) == chain + [last.node];
      assert (chain + [last.node])[|chain|] == last.node;
      assert Elements(chain + [last.node]) == Elements(chain) + {last.node};
      forall k | 0 <= k < |chain| ensures chain[k] != last.node {
        assert (chain + [last.node])[k] == chain[k];
      }
    }

    /** The record grew by exactly these starts in the innermost open round; what started in new rounds is in
        order. */
    ghost predicate Moved(before: seq<Event>, count: nat, open: seq<Open>,
                          starts: seq<(Id, nat)>) reads this`log, this`started {
      count <= started && Extended(TheRules(), before, log, count, Context(open), starts)
    }

    /** Every round that can be open belongs to an execution that has started. */
    lemma PlaceIsEarlier(open: seq<Open>, inner: seq<Open>)
      requires Recorded(open + inner)
      ensures Earlier(Context(open), started)
    {
      OpenIsIncreasing(log);
      if open != [] {
        assert open[|open| - 1] == (open + inner)[|open| - 1];
      }
    }

    method Stopped(pending: Id) returns (stopped: Option<Stop>)
      modifies this`polls
      ensures stopped.Some? ==> stopped.value.stoppedNode == Some(pending) && stopped.value.failedNode == None
    {
      var i := outside.interrupt(polls);
      polls := polls + 1;
      if i == CancelOrSupersede {
        stopped := Some(RunOutcome(Cancelled, NoFault, None, Some(pending), skipped));
      } else if i == TimedOut {
        stopped := Some(RunOutcome(Failed, RunTimeout, None, Some(pending), skipped));
      } else {
        stopped := None;
      }
    }

    method Kill(u: Id)
      requires Shaped()
      modifies this`state
      ensures state == Killed(plan.net, old(state), u)
    {
      var out := OutIndices(plan.net.links, u);
      for k := 0 to |out|
        invariant |state| == |old(state)|
        invariant forall i :: 0 <= i < |state| ==> state[i] == if i in out[..k] then Dead else old(state)[i]
      {
        assert out[k] in out;
        assert out[..k + 1] == out[..k] + [out[k]];
        state := state[out[k] := Dead];
      }
      assert out[..|out|] == out;
    }

    method Settle(u: Id, ports: Option<set<Port>>, skip: set<Port>)
      requires Shaped()
      modifies this`state
      ensures state == SettledBy(plan.net, old(state), u, ports, skip)
    {
      var out := OutIndices(plan.net.links, u);
      ghost var goal := SettledBy(plan.net, state, u, ports, skip);
      for k := 0 to |out|
        invariant |state| == |old(state)|
        invariant forall i :: 0 <= i < |state| ==> state[i] == if i in out[..k] then goal[i] else old(state)[i]
      {
        assert out[k] in out;
        assert out[..k + 1] == out[..k] + [out[k]];
        var port := plan.net.links[out[k]].sourcePort;
        if port !in skip {
          state := state[out[k] := if LivePort(ports, port) then Live else Dead];
        }
      }
      assert out[..|out|] == out;
    }

    method Arm(loop: Id)
      requires Shaped()
      modifies this`state
      ensures state == Armed(plan, loop, old(state))
    {
      for i := 0 to |plan.net.links|
        invariant |state| == |plan.net.links|
        invariant forall j ::
          0 <= j < |state| ==> state[j] == if j < i then ArmedLabel(plan, loop, j, old(state)[j]) else old(state)[j]
      {
        var link := plan.net.links[i];
        var fromLoop := link.source == loop && link.sourcePort == Each;
        if link.target in Body(plan, loop) && (link.source in Body(plan, loop) || fromLoop) {
          state := state[i := if fromLoop then Live else Pending];
        }
      }
    }

    /** Nearer the top of the canvas, then nearer the left, comes last, so that it is popped first. */
    predicate Before(a: Id, b: Id)
      requires a in settings && b in settings
    {
      settings[a].y > settings[b].y || (settings[a].y == settings[b].y && settings[a].x >= settings[b].x)
    }

    ghost predicate ByPosition(s: seq<Id>) {
      (forall v :: v in s ==> v in settings) && forall i, j :: 0 <= i < j < |s| ==> Before(s[i], s[j])
    }

    method Place(sorted: seq<Id>, v: Id) returns (placed: seq<Id>)
      requires ByPosition(sorted) && v in settings
      ensures ByPosition(placed) && Elements(placed) == Elements(sorted) + {v} && |placed| == |sorted| + 1
    {
      var k := 0;
      while k < |sorted| && Before(sorted[k], v)
        invariant 0 <= k <= |sorted|
        invariant forall i :: 0 <= i < k ==> Before(sorted[i], v)
      {
        k := k + 1;
      }
      placed := sorted[..k] + [v] + sorted[k..];
      StillByPosition(sorted, k, v);
      assert sorted == sorted[..k] + sorted[k..];
    }

    lemma BeforeIsAnOrder(a: Id, b: Id, c: Id)
      requires a in settings && b in settings && c in settings
      ensures Before(a, b) || Before(b, a)
      ensures Before(a, b) && Before(b, c) ==> Before(a, c)
    {}

    lemma StillByPosition(sorted: seq<Id>, k: nat, v: Id)
      requires ByPosition(sorted) && v in settings && k <= |sorted|
      requires forall i :: 0 <= i < k ==> Before(sorted[i], v)
      requires k < |sorted| ==> !Before(sorted[k], v)
      ensures ByPosition(sorted[..k] + [v] + sorted[k..])
    {
      var placed := sorted[..k] + [v] + sorted[k..];
      assert forall i :: 0 <= i < |placed| ==>
        placed[i] == if i < k then sorted[i] else if i == k then v else sorted[i - 1];
      hide Before;
      forall i, j | 0 <= i < j < |placed| ensures Before(placed[i], placed[j]) {
        if i == k {
          BeforeIsAnOrder(v, sorted[k], sorted[j - 1]);
          BeforeIsAnOrder(sorted[k], v, v);
        }
      }
    }

    method Seeds(direct: set<Id>) returns (stack: seq<Id>)
      requires Formed() && Shaped() && direct <= plan.ids
      ensures Elements(stack) == set v | v in direct && Ready(plan.net, state, v)
      ensures ByPosition(stack)
    {
      stack := [];
      var left := direct;
      while left != {}
        invariant left <= direct && ByPosition(stack)
        invariant Elements(stack) == set v | v in direct - left && Ready(plan.net, state, v)
      {
        var v :| v in left;
        left := left - {v};
        if Ready(plan.net, state, v) {
          stack := Place(stack, v);
        }
      }
    }

    /** A target of u that the walk may handle next. */
    ghost predicate Next(u: Id, direct: set<Id>, done: set<Id>, v: Id)
      requires Shaped()
      reads this`state, this`ranStack
    {
      && v in direct && v !in done && Ready(plan.net, state, v)
      && exists i :: 0 <= i < |plan.net.links| && plan.net.links[i].source == u && plan.net.links[i].target == v
    }

    method Push(u: Id, direct: set<Id>, done: set<Id>, stack: seq<Id>) returns (pushed: seq<Id>)
      requires Formed() && Shaped()
      ensures stack <= pushed && ByPosition(pushed[|stack|..])
      ensures forall v :: v in pushed[|stack|..] <==> Next(u, direct, done, v)
      ensures Elements(stack) <= Elements(pushed) <= Elements(stack) + direct
      ensures forall i :: 0 <= i < |plan.net.links| && plan.net.links[i].source == u
                          && plan.net.links[i].target in direct - done
                          ==> !Ready(plan.net, state, plan.net.links[i].target)
                              || plan.net.links[i].target in Elements(pushed)
    {
      var kids := NextTargets(u, direct, done);
      pushed := stack + kids;
      assert pushed[|stack|..] == kids;
      assert Elements(pushed) == Elements(stack) + Elements(kids);
      forall i | 0 <= i < |plan.net.links| && plan.net.links[i].source == u && plan.net.links[i].target in direct - done
        && Ready(plan.net, state, plan.net.links[i].target)
        ensures plan.net.links[i].target in Elements(pushed)
      {
        assert Next(u, direct, done, plan.net.links[i].target);
      }
    }

    method NextTargets(u: Id, direct: set<Id>, done: set<Id>) returns (kids: seq<Id>)
      requires Formed() && Shaped()
      ensures ByPosition(kids) && forall v :: v in kids <==> Next(u, direct, done, v)
    {
      var out := OutIndices(plan.net.links, u);
      kids := [];
      for k := 0 to |out|
        invariant ByPosition(kids) && forall v :: v in kids ==> Next(u, direct, done, v)
        invariant forall i: nat :: i < |plan.net.links| && i in out[..k] && plan.net.links[i].target in direct - done
                          ==> !Ready(plan.net, state, plan.net.links[i].target)
                              || plan.net.links[i].target in Elements(kids)
      {
        assert out[k] in out && out[..k + 1] == out[..k] + [out[k]];
        var target := plan.net.links[out[k]].target;
        assert plan.net.links[out[k]] in plan.net.links;
        if target in direct && target !in done && target !in kids && Ready(plan.net, state, target) {
          assert Next(u, direct, done, target);
          ghost var before := kids;
          kids := Place(kids, target);
          assert forall v :: v in kids ==> v in Elements(before) + {target};
        }
      }
      assert out[..|out|] == out;
      assert forall v :: v in kids <==> v in Elements(kids);
    }

    method Note(u: Id, result: NodeResult)
      requires ranStack != []
      modifies this`skipped, this`produced, this`ranStack
      ensures produced == old(produced)[u := result.output]
      ensures TopGrew(old(ranStack), ranStack, {u})
      ensures skipped == old(skipped) + if result.status == Skipped then [u] else []
    {
      if result.status == Skipped {
        skipped := skipped + [u];
      }
      produced := produced[u := result.output];
      ranStack := ranStack[|ranStack| - 1 := ranStack[|ranStack| - 1] + {u}];
    }

    method OnStart(u: Id, ghost open: seq<Open>) returns (seqNo: nat)
      requires Recorded(open) && FramesFit(open) && u in plan.reachable
      modifies this`log, this`started
      ensures seqNo == started == old(started) + 1 && Recorded(open + [Open(seqNo, u, 0)])
      ensures Moved(old(log), old(started), open, [(u, seqNo)]) && old(log) <= log
    {
      assert open + [] == open;
      PlaceIsEarlier(open, []);
      var context := if frames == [] then None else Some(frames[|frames| - 1]);
      started := started + 1;
      seqNo := started;
      ReplayOne(log, Started(seqNo, u, context));
      ExtendOne(TheRules(), log, old(started), Started(seqNo, u, context), Context(open));
      log := log + [Started(seqNo, u, context)];
    }

    method OnFinish(seqNo: nat, u: Id, ghost open: seq<Open>, ghost rounds: nat)
      requires Recorded(open + [Open(seqNo, u, rounds)])
      modifies this`log
      ensures Recorded(open) && Moved(old(log), old(started), open, []) && old(log) <= log
    {
      PlaceIsEarlier(open, [Open(seqNo, u, rounds)]);
      ReplayOne(log, Finished(seqNo, u));
      ExtendOne(TheRules(), log, started, Finished(seqNo, u), Context(open));
      log := log + [Finished(seqNo, u)];
      assert (open + [Open(seqNo, u, rounds)])[..|open|] == open;
    }

    method OnRound(seqNo: nat, index: nat, u: Id, ghost open: seq<Open>)
      requires Recorded(open + [Open(seqNo, u, index)])
      modifies this`log
      ensures Recorded(open + [Open(seqNo, u, index + 1)])
      ensures log == old(log) + [RoundBegan(seqNo, index)]
    {
      ReplayOne(log, RoundBegan(seqNo, index));
      log := log + [RoundBegan(seqNo, index)];
      assert (open + [Open(seqNo, u, index)])[..|open|] == open;
    }

    /** What handling u may change besides the record: its own edges and values, and those under it. */
    twostate predicate Confined(u: Id) reads this {
      && Shaped() && |old(state)| == |plan.net.links|
      && OnlyAtOrUnder(plan, u, old(state), state)
      && ValuesKept(plan, u, old(produced), produced)
      && frames == old(frames) && ranStack == old(ranStack)
    }

    method Pause(u: Id, wait: real) returns (stopped: Option<Stop>)
      modifies this`polls
      ensures stopped.Some? ==> stopped.value.failedNode == None
    {
      stopped := Stopped(u);
      if stopped.Some? || wait <= 0.0 {
        return;
      }
      for k := 0 to outside.pausePolls(started)
        invariant stopped.None?
      {
        stopped := Stopped(u);
        if stopped.Some? {
          return;
        }
      }
    }

    /** Attempts until one does not fail, the budget is spent, or the run is stopped. On success exactly
        the last attempt is still open. */
    method Tries(u: Id, ghost open: seq<Open>)
      returns (stopped: Option<Stop>, seqNo: nat, result: NodeResult, ghost rounds: nat, ghost numbers: seq<nat>)
      requires Formed() && Shaped() && Recorded(open) && FramesFit(open) && MayRun(open, u)
      requires Rests(open)
      modifies this
      ensures Confined(u) && Moved(old(log), old(started), open, Listing(Block(u, numbers)))
      ensures Recorded(if stopped.Some? then open else open + [Open(seqNo, u, rounds)])
      ensures Attempting(TheRules(), Block(u, numbers))
      ensures stopped.None? ==>
        Attempted(TheRules(), Block(u, numbers)) && result == LastResult(TheRules(), Block(u, numbers))
      ensures stopped.None? ==> Rests(open)
      ensures stopped.Some? ==> Blamed(TheRules(), stopped.value, log)
      decreases Unopened(open), 6
    {
      hide Nested, Extended, Replay, StartsAt, AttemptResult;
      CanStart(open, u);
      var (tries, wait) := RetryBudget(settings[u]);
      seqNo, rounds, numbers := 0, 0, [];
      result := NodeResult(Failed, Null, NodeFailed, None, None);
      NoAttempts(TheRules(), u);
      StillThere(open);
      stopped := Stopped(u);
      if stopped.Some? {
        return;
      }
      stopped, seqNo, result, rounds := Attempt(u, open);
      numbers := [old(started) + 1];
      assert Listing(Block(u, numbers)) == [(u, old(started) + 1)];
      if stopped.Some? {
        return;
      }
      var attempt := 1;
      while result.status == Failed && attempt < tries
        invariant 1 <= attempt == |numbers| <= tries && stopped.None?
        invariant Rests(open) && Confined(u) && FramesFit(open) && Recorded(open + [Open(seqNo, u, rounds)])
        invariant Moved(old(log), old(started), open, Listing(Block(u, numbers)))
        invariant Attempting(TheRules(), Block(u, numbers))
        invariant result == LastResult(TheRules(), Block(u, numbers))
        decreases tries - attempt
      {
        ghost var was, held, recorded, count := state, produced, log, started;
        ghost var next;
        stopped, seqNo, result, rounds, next := Again(u, seqNo, RetryPause(wait, result.minimumWait), open, rounds);
        EffectsCompose(plan, u, old(state), was, state);
        ValuesCompose(plan, u, old(produced), held, produced);
        ExtendTwice(TheRules(), old(log), recorded, log, old(started), count, Context(open),
                     Listing(Block(u, numbers)), Listing(Block(u, next)));
        MoreAttempts(TheRules(), u, numbers, next);
        numbers := numbers + next;
        if stopped.Some? {
          return;
        }
        attempt := attempt + 1;
      }
    }

    lemma CanStart(open: seq<Open>, u: Id)
      requires Formed() && MayRun(open, u)
      ensures u in plan.reachable && u in plan.ids && u in settings
      ensures accepted ==> u in Members(plan, Frame(open))
    {
      var chain := Nodes(open) + [u];
      assert chain[|open|] == u;
      if accepted {
        if open == [] {
          HandledAreMembers(plan, None);
        } else {
          assert chain[|open| - 1] == open[|open| - 1].node;
          assert chain[|open| - 1 + 1] in Body(plan, chain[|open| - 1]);
        }
      }
    }

    lemma StillThere(open: seq<Open>)
      requires Recorded(open)
      ensures Moved(log, started, open, [])
    {
      assert open + [] == open;
      PlaceIsEarlier(open, []);
      ExtendNone(TheRules(), log, started, Context(open));
    }

    /** Close a failed attempt, wait, and attempt again unless the run is stopped meanwhile. */
    method Again(u: Id, failed: nat, wait: real, ghost open: seq<Open>, ghost failedRounds: nat)
      returns (stopped: Option<Stop>, seqNo: nat, result: NodeResult, ghost rounds: nat, ghost next: seq<nat>)
      requires Formed() && Shaped() && FramesFit(open) && MayRun(open, u) && u in settings
      requires Recorded(open + [Open(failed, u, failedRounds)])
      requires Rests(open)
      modifies this
      ensures Confined(u) && |next| <= 1 && Moved(old(log), old(started), open, Listing(Block(u, next)))
      ensures Recorded(if stopped.Some? then open else open + [Open(seqNo, u, rounds)])
      ensures stopped.None? ==> next == [seqNo] && result == LastResult(TheRules(), Block(u, next))
      ensures stopped.None? ==> Rests(open)
      ensures stopped.Some? ==> Blamed(TheRules(), stopped.value, log)
      decreases Unopened(open), 5, 1
    {
      hide Nested, Extended, Replay, StartsAt, AttemptResult;
      CanStart(open, u);
      seqNo, rounds, result, next := failed, failedRounds, NodeResult(Failed, Null, NodeFailed, None, None), [];
      NoAttempts(TheRules(), u);
      OnFinish(failed, u, open, failedRounds);
      RestsStayRecorded(TheRules(), old(log), log, rest);
      stopped := Pause(u, wait);
      if stopped.Some? {
        return;
      }
      stopped := Stopped(u);
      if stopped.Some? {
        return;
      }
      ghost var recorded, count := log, started;
      stopped, seqNo, result, rounds := Attempt(u, open);
      next := [count + 1];
      ExtendTwice(TheRules(), old(log), recorded, log, old(started), count, Context(open), [], [(u, count + 1)]);
      assert Listing(Block(u, next)) == [] + [(u, count + 1)];
    }

    /** One attempt; a body stop becomes the outcome that ends the run. */
    method Attempt(u: Id, ghost open: seq<Open>)
      returns (stopped: Option<Stop>, seqNo: nat, result: NodeResult, ghost rounds: nat)
      requires Formed() && Shaped() && Recorded(open) && FramesFit(open) && MayRun(open, u) && u in settings
      requires Rests(open)
      modifies this
      ensures Confined(u) && Moved(old(log), old(started), open, [(u, old(started) + 1)])
      ensures Recorded(if stopped.Some? then open else open + [Open(seqNo, u, rounds)])
      ensures stopped.None? ==> seqNo == old(started) + 1 && result == AttemptResult(TheRules(), u, seqNo)
      ensures stopped.None? ==> Rests(open)
      ensures stopped.Some? ==> Blamed(TheRules(), stopped.value, log)
      decreases Unopened(open), 5, 0
    {
      var halt;
      halt, seqNo, result, rounds := Start(u, open);
      if halt.Some? {
        return Some(halt.value.outcome), 0, RoundStopResult(halt.value), rounds;
      }
      stopped := None;
    }

    /** Start one execution. When a round inside it stops the run, the execution is finished here, before
        the stop travels on. */
    method Start(u: Id, ghost open: seq<Open>)
      returns (halt: Option<Halt>, seqNo: nat, result: NodeResult, ghost rounds: nat)
      requires Formed() && Shaped() && Recorded(open) && FramesFit(open) && MayRun(open, u) && u in settings
      requires Rests(open)
      modifies this
      ensures Confined(u) && Moved(old(log), old(started), open, [(u, seqNo)]) && seqNo == old(started) + 1
      ensures Recorded(if halt.Some? then open else open + [Open(seqNo, u, rounds)])
      ensures halt.None? ==> result == AttemptResult(TheRules(), u, seqNo)
      ensures halt.None? ==> Rests(open)
      ensures halt.Some? ==> Blamed(TheRules(), halt.value.outcome, log)
      decreases Unopened(open), 4
    {
      CanStart(open, u);
      seqNo := OnStart(u, open);
      ghost var first := log;
      RestsStayRecorded(TheRules(), old(log), log, rest);
      halt, result, rounds := Invoke(u, seqNo, open);
      ExtendTwice(TheRules(), old(log), first, log, old(started), old(started), Context(open), [(u, seqNo)], []);
      assert [(u, seqNo)] + [] == [(u, seqNo)];
      if halt.Some? {
        ghost var recorded, count := log, started;
        OnFinish(seqNo, u, open, rounds);
        ExtendTwice(TheRules(), old(log), recorded, log, old(started), count, Context(open), [(u, seqNo)], []);
        StillBlamed(TheRules(), halt.value.outcome, recorded, log);
        return;
      }
      result := SkipNoted(result);
    }

    /** A leaf executes; a container runs as many rounds as it asks for. What it starts, it starts in its rounds. */
    method Invoke(u: Id, seqNo: nat, ghost open: seq<Open>)
      returns (halt: Option<Halt>, result: NodeResult, ghost rounds: nat)
      requires Formed() && Shaped() && Recorded(open + [Open(seqNo, u, 0)]) && FramesFit(open) && MayRun(open, u)
      requires u in settings && seqNo == started > 0 && Earlier(Context(open), seqNo - 1)
      requires Rests(open)
      modifies this
      ensures Confined(u) && Recorded(open + [Open(seqNo, u, rounds)])
      ensures old(started) <= started && Extended(TheRules(), old(log), log, seqNo - 1, Context(open), [])
      ensures halt.None? ==> SkipNoted(result) == AttemptResult(TheRules(), u, seqNo)
      ensures halt.None? ==> Rests(open)
      ensures halt.Some? ==> Blamed(TheRules(), halt.value.outcome, log)
      decreases Unopened(open), 3
    {
      hide Nested, Extended, Blamed, Replay, StartsAt, Accounted, Orderly, Executions;
      rounds := 0;
      halt := None;
      NothingInside(open, u);
      if !settings[u].known && u !in plan.net.loops {
        return None, NodeResult(Failed, Null, NodeFailed, None, None), 0;
      }
      if u in plan.net.loops {
        for index := 0 to outside.rounds(seqNo)
          invariant rounds == index && halt.None?
          invariant Rests(open) && Confined(u) && FramesFit(open) && Recorded(open + [Open(seqNo, u, index)])
          invariant seqNo <= started && Extended(TheRules(), old(log), log, seqNo - 1, Context(open), [])
        {
          ghost var ran, blocks;
          ghost var recorded, count := log, started;
          var record;
          RoundIsNew(seqNo, index, u, open);
          halt, record, ran, blocks := RunRound(u, seqNo, index, open);
          rounds := index + 1;
          ExtendInside(TheRules(), old(log), recorded, log, seqNo - 1, count, Context(open), Some((seqNo, index)),
              blocks);
          if halt.Some? {
            return halt, RoundStopResult(halt.value), rounds;
          }
        }
      }
      result := outside.execute(u, seqNo);
    }

    lemma RoundIsNew(seqNo: nat, index: nat, u: Id, open: seq<Open>)
      requires Recorded(open + [Open(seqNo, u, index)])
      ensures StartsAt(log, Some((seqNo, index))) == [] && seqNo <= started
    {
      OpenIsIncreasing(log);
      assert (open + [Open(seqNo, u, index)])[|open|] == Open(seqNo, u, index);
      UnbegunRoundIsEmpty(log, seqNo, index);
    }

    lemma NothingInside(open: seq<Open>, u: Id)
      requires started > 0 && Recorded(open + [Open(started, u, 0)]) && Earlier(Context(open), started - 1)
      ensures Extended(TheRules(), log, log, started - 1, Context(open), [])
    {
      forall c | !Earlier(c, started - 1) ensures InBlocks(TheRules(), StartsAt(log, c)) {
        assert (open + [Open(started, u, 0)])[|open|].rounds <= c.value.1;
        UnbegunRoundIsEmpty(log, c.value.0, c.value.1);
        NothingStarted(TheRules());
      }
    }

    /** What running u to the end adds to Confined: its values, its labels and its place among the nodes that ran. */
    twostate predicate RanNode(u: Id, result: NodeResult) reads this {
      && Shaped() && |old(state)| == |plan.net.links| && old(ranStack) != []
      && OnlyAtOrUnder(plan, u, old(state), state)
      && Settled(plan.net, {u}, state, map[u := result.ports])
      && ValuesKept(plan, u, old(produced), produced) && u in produced && produced[u] == result.output
      && frames == old(frames)
      && TopGrew(old(ranStack), ranStack, {u})
    }

    /** Attempt u, apply its error policy, and note its result. */
    method RunNode(u: Id, direct: set<Id>, done: set<Id>, stack: seq<Id>, ghost open: seq<Open>)
      returns (outcome: Option<Stop>, pushed: seq<Id>, ghost result: NodeResult, ghost block: Block)
      requires Formed() && Shaped() && Recorded(open) && FramesFit(open) && MayRun(open, u)
      requires Rests(open)
      modifies this
      ensures Recorded(open) && block.node == u && Moved(old(log), old(started), open, Listing(block))
      ensures Attempting(TheRules(), block)
      ensures outcome.Some? ==> Confined(u) && Blamed(TheRules(), outcome.value, log)
      ensures outcome.None? ==> Rests(open)
      ensures outcome.None? ==> RanNode(u, result) && Pushes(u, direct, done, stack, pushed)
      ensures outcome.None? ==> Concluded(TheRules(), block) && result == Conclusion(TheRules(), block)
      decreases Unopened(open), 7
    {
      hide Extended, RestsRecorded, AllAtRest, Nested, Replay, Blamed, Attempting;
      CanStart(open, u);
      pushed := stack;
      var seqNo, r;
      ghost var rounds, numbers;
      outcome, seqNo, r, rounds, numbers := Tries(u, open);
      result, block := r, Block(u, numbers);
      if outcome.Some? {
        return;
      }
      var final := PolicyResult(settings[u], r);
      ghost var recorded, count := log, started;
      OnFinish(seqNo, u, open, rounds);
      RestsStayRecorded(TheRules(), recorded, log, rest);
      ExtendTwice(TheRules(), old(log), recorded, log, old(started), count, Context(open), Listing(block), []);
      assert Listing(block) + [] == Listing(block);
      if EndsRun(settings[u], r) {
        outcome := Some(RunOutcome(Failed, if r.fault == NoFault then NodeFailed else r.fault, Some(u), None, skipped));
        LastIsBlamed(TheRules(), outcome.value, log, old(log), old(started), Context(open), block);
        return;
      }
      result := final;
      ghost var was, held := state, produced;
      pushed := Conclude(u, final, direct, done, stack);
      if accepted { NodeLeavesRest(plan, was, state, rest, open, u); }
      EffectsCompose(plan, u, old(state), was, state);
      ValuesCompose(plan, u, old(produced), held, produced);
    }

    /** Note a result, label the outgoing edges, and push the targets that became ready. */
    method Conclude(u: Id, final: NodeResult, direct: set<Id>, done: set<Id>, stack: seq<Id>) returns (pushed: seq<Id>)
      requires Formed() && Shaped()
      modifies this`state, this`skipped, this`produced, this`ranStack
      ensures |state| == |old(state)|
      ensures forall i :: 0 <= i < |state| && plan.net.links[i].source != u ==> state[i] == old(state)[i]
      ensures RanNode(u, final) && Pushes(u, direct, done, stack, pushed)
    {
      Note(u, final);
      SettleLabels(plan, state, u, final.ports, map[u := final.ports]);
      Settle(u, final.ports, if u in plan.net.loops then {Each} else {});
      pushed := Push(u, direct, done, stack);
    }

    /** The stack grows by ready nodes of the walk, and by every ready target of u still to do. */
    ghost predicate Pushes(u: Id, direct: set<Id>, done: set<Id>, stack: seq<Id>, pushed: seq<Id>)
      reads this`state
    {
      && Elements(stack) <= Elements(pushed) <= Elements(stack) + direct
      && |state| == |plan.net.links|
      && forall i :: 0 <= i < |plan.net.links| && plan.net.links[i].source == u
                     && plan.net.links[i].target in direct - done
                     ==> !Ready(plan.net, state, plan.net.links[i].target)
                         || plan.net.links[i].target in Elements(pushed)
    }

    ghost function Now(): Snapshot reads this {
      Snapshot(state, produced, ranStack, frames, log, started)
    }

    /** The invariant of one walk, against what it began with. Only its last part needs a sound plan. */
    ghost predicate Walking(direct: set<Id>, done: set<Id>, stack: set<Id>, ran: map<Id, NodeResult>,
                            blocks: seq<Block>,
                            init: Snapshot, open: seq<Open>)
      reads this
    {
      && WalkKept(init, open, blocks) && TopGrew(init.sets, ranStack, ran.Keys)
      && ran.Keys <= done <= direct && Accounted(TheRules(), blocks, ran) && Rests(open)
      && (accepted ==> Labelling(direct, done, stack, ran, init))
    }

    ghost predicate Labelling(direct: set<Id>, done: set<Id>, stack: set<Id>, ran: map<Id, NodeResult>, init: Snapshot)
      reads this
    {
      && Progress(plan.net, direct, done, init.state, state, PortsOf(ran)) && Produces(ran, produced)
      && Covered(plan.net, direct, done, stack)
    }

    /** What holds of a walk whether it goes on, ends or is stopped. */
    ghost predicate WalkKept(init: Snapshot, open: seq<Open>, blocks: seq<Block>)
      reads this
    {
      && Recorded(open) && FramesFit(open) && frames == init.frames
      && OnlyInFrame(plan, Frame(open), init.state, state)
          && FrameValuesKept(plan, Frame(open), init.produced, produced)
      && LowerKept(init.sets, ranStack)
      && init.started <= started && Extended(TheRules(), init.log, log, init.started, Context(open), Executions(blocks))
    }

    /** The walk of one frame. On any graph it ends: each turn decides a node or takes one off the stack, and each
        body walked inside it takes a container out of what is left to open. However it ends, its starts are in
        order. When it ends by itself, exactly the nodes of `ran` were started in it and each left the result of its
        last attempt; on an accepted graph those are the nodes the labelling rule says run, whatever order the stack
        takes. */
    method Walk(scope: set<Id>, start: Option<Id>, ghost open: seq<Open>)
      returns (outcome: Option<Stop>, ghost ran: map<Id, NodeResult>, ghost blocks: seq<Block>)
      requires Formed() && Shaped() && Recorded(open) && FramesFit(open)
      requires scope == Scope(plan, Frame(open)) && Nested(plan, Nodes(open))
      requires (open != [] ==> open[|open| - 1].node in plan.net.loops)
      requires accepted ==> Startable(plan.net, Members(plan, Frame(open)), state)
      requires accepted && start.Some? ==> StartsFrame(Frame(open), start.value)
      requires Rests(open)
      modifies this
      ensures WalkKept(old(Now()), open, blocks) && Orderly(TheRules(), blocks)
      ensures outcome.None? ==> Accounted(TheRules(), blocks, ran) && TopGrew(old(ranStack), ranStack, ran.Keys)
      ensures outcome.None? && accepted ==> IsWalk(Frame(open), old(state), state, ran) && Produces(ran, produced)
      ensures outcome.None? ==> Rests(open)
      ensures outcome.Some? ==> Blamed(TheRules(), outcome.value, log)
      decreases Unopened(open), 9
    {
      hide Extended, Accounted, Orderly, Labelled, Progress, Covered, Produces, Replay, StartsAt, Ready, LiveIncoming;
      hide Startable, FrameValuesKept, Nested;
      var direct := Direct(plan, scope);
      ghost var init := Now();
      var done: set<Id> := {};
      outcome, ran, blocks := None, map[], [];
      var stack := FirstStack(direct, start, open);
      Begun(direct, Elements(stack), init, open);
      if accepted { HandledAreMembers(plan, Frame(open)); }
      while stack != []
        invariant outcome.None? && Walking(direct, done, Elements(stack), ran, blocks, init, open)
        decreases direct - done, |stack|
      {
        outcome := Stopped(stack[|stack| - 1]);
        if outcome.Some? {
          AccountedIsOrderly(TheRules(), blocks, ran);
          return;
        }
        var u := stack[|stack| - 1];
        LastElement(stack);
        stack := stack[..|stack| - 1];
        if u in done || u !in direct || !Ready(plan.net, state, u) {
          TakenOff(direct, done, Elements(stack), ran, init, open, u);
        } else {
          outcome, stack, ran, blocks := Turn(u, direct, done, stack, ran, blocks, init, open);
          if outcome.Some? {
            return;
          }
          done := done + {u};
        }
      }
      AccountedIsOrderly(TheRules(), blocks, ran);
      assert Elements(stack) == {};
      if accepted {
        Ended(direct, done, ran, init, open);
      }
    }

    /** A complete walk of one frame: its members carry the labelling of `ran`, and what enters it is as it was. */
    ghost predicate IsWalk(frame: Option<Id>, before: States, after: States, ran: map<Id, NodeResult>) {
      && |before| == |after| == |plan.net.links|
      && Labelled(plan.net, Members(plan, frame), after, PortsOf(ran))
      && SameBoundary(plan.net, Members(plan, frame), before, after)
    }

    lemma Begun(direct: set<Id>, stack: set<Id>, init: Snapshot, open: seq<Open>)
      requires Shaped() && Recorded(open) && FramesFit(open) && Rests(open) && init == Now()
      requires accepted ==> Covered(plan.net, direct, {}, stack) && Progress(plan.net, direct, {}, state, state, map[])
      ensures Walking(direct, {}, stack, map[], [], init, open)
    {
      assert open + [] == open;
      PlaceIsEarlier(open, []);
      ExtendNone(TheRules(), log, started, Context(open));
      NothingToAccount(TheRules());
      NoBlocks();
      assert PortsOf(map[]) == map[];
      assert ranStack[|ranStack| - 1] + {} == ranStack[|ranStack| - 1];
    }

    /** A node taken off the stack and left: it was decided, belongs elsewhere, or still waits. */
    lemma TakenOff(direct: set<Id>, done: set<Id>, stack: set<Id>, ran: map<Id, NodeResult>, init: Snapshot,
                   open: seq<Open>, u: Id)
      requires Formed() && Shaped() && direct == Handled(plan, Frame(open)) && |init.state| == |plan.net.links|
      requires accepted ==> Startable(plan.net, direct, init.state) && Labelling(direct, done, stack + {u}, ran, init)
      requires u in done || u !in direct || !Ready(plan.net, state, u)
      ensures accepted ==> Labelling(direct, done, stack, ran, init)
    {
      if accepted && u in direct && u !in done {
        HandledAreMembers(plan, Frame(open));
        FrameEachLeaves(plan, Frame(open));
        UnreadyWaits(plan.net, direct, done, init.state, state, PortsOf(ran), u);
      }
    }

    lemma Ended(direct: set<Id>, done: set<Id>, ran: map<Id, NodeResult>, init: Snapshot, open: seq<Open>)
      requires Sound(plan) && direct == Handled(plan, Frame(open)) && Labelling(direct, done, {}, ran, init)
      ensures IsWalk(Frame(open), init.state, state, ran)
    {
      HandledAreMembers(plan, Frame(open));
      NothingLeft(plan.net, direct, done, init.state, state, PortsOf(ran));
    }

    ghost predicate StartsFrame(frame: Option<Id>, start: Id) {
      && (start in Members(plan, frame) || Members(plan, frame) == {})
      && forall v :: v in Members(plan, frame) && v != start ==> Waits(plan.net, Members(plan, frame), v)
    }
  
    method FirstStack(direct: set<Id>, start: Option<Id>, ghost open: seq<Open>) returns (stack: seq<Id>)
      requires Formed() && Shaped() && direct == Handled(plan, Frame(open))
      requires accepted ==> Startable(plan.net, Members(plan, Frame(open)), state)
      requires accepted && start.Some? ==> StartsFrame(Frame(open), start.value)
      ensures accepted ==> Covered(plan.net, direct, {}, Elements(stack))
      ensures accepted ==> Progress(plan.net, direct, {}, state, state, map[])
    {
      assert direct - {} == direct;
      if start.Some? {
        stack := if start.value in direct then [start.value] else [];
        assert start.value in direct ==> Elements(stack) == {start.value};
        if accepted { HandledAreMembers(plan, Frame(open)); }
      } else {
        stack := Seeds(direct);
        if accepted {
          HandledAreMembers(plan, Frame(open));
          FrameEachLeaves(plan, Frame(open));
          forall v | v in direct && v !in Elements(stack) ensures Waits(plan.net, direct - {}, v) {
            UnreadyWaits(plan.net, direct, {}, state, state, map[], v);
          }
        }
      }
    }

    /** A ready node is decided. */
    method Turn(u: Id, direct: set<Id>, done: set<Id>, stack: seq<Id>, ghost ran0: map<Id, NodeResult>,
                ghost blocks0: seq<Block>, ghost init: Snapshot, ghost open: seq<Open>)
      returns (outcome: Option<Stop>, pushed: seq<Id>, ghost ran: map<Id, NodeResult>, ghost blocks: seq<Block>)
      requires Formed() && direct == Handled(plan, Frame(open)) && u in direct && u !in done
      requires Nested(plan, Nodes(open)) && (open != [] ==> open[|open| - 1].node in plan.net.loops)
      requires accepted ==> Startable(plan.net, direct, init.state)
      requires Walking(direct, done, Elements(stack) + {u}, ran0, blocks0, init, open)
      requires Ready(plan.net, state, u)
      modifies this
      ensures WalkKept(init, open, blocks) && Orderly(TheRules(), blocks)
      ensures outcome.None? ==> Walking(direct, done + {u}, Elements(pushed), ran, blocks, init, open)
      ensures outcome.Some? ==> Blamed(TheRules(), outcome.value, log)
      decreases Unopened(open), 8, 1
    {
      hide Extended, Accounted, Orderly, Labelling, Startable, FrameValuesKept, Replay, StartsAt, Ready, LiveIncoming;
      if !LiveIncoming(plan.net, state, u) {
        outcome, ran, blocks := None, ran0, blocks0;
        pushed := Skip(u, direct, done, stack, ran, blocks, init, open);
        AccountedIsOrderly(TheRules(), blocks, ran);
      } else {
        OneDeeper(plan, Nodes(open), u);
        outcome, pushed, ran, blocks := Handle(u, direct, done, stack, ran0, blocks0, init, open);
      }
    }

    /** A ready node without a live edge is killed: nothing is started for it. */
    method Skip(u: Id, direct: set<Id>, done: set<Id>, stack: seq<Id>, ghost ran: map<Id, NodeResult>,
                ghost blocks: seq<Block>,
                ghost init: Snapshot, ghost open: seq<Open>)
      returns (pushed: seq<Id>)
      requires Formed() && direct == Handled(plan, Frame(open)) && u in direct && u !in done
      requires accepted ==> Startable(plan.net, direct, init.state)
      requires Walking(direct, done, Elements(stack) + {u}, ran, blocks, init, open)
      requires Ready(plan.net, state, u) && !LiveIncoming(plan.net, state, u)
      modifies this`state
      ensures Walking(direct, done + {u}, Elements(pushed), ran, blocks, init, open)
    {
      hide Extended, Accounted, RestsRecorded, AllAtRest, Replay, StartsWithin, Sound, Handled, Progress, Produces;
      ghost var was := state;
      KillLabels(plan, state, u, PortsOf(ran));
      Kill(u);
      FrameOnly(plan, Frame(open), u, was, state);
      InFrameCompose(plan, Frame(open), init.state, was, state);
      pushed := Push(u, direct, done + {u}, stack);
      if accepted {
        HandledAreMembers(plan, Frame(open));
        NodeLeavesRest(plan, was, state, rest, open, u);
        Decide(direct, done, Elements(stack), ran, ran, init, open, u, was, Elements(pushed));
      }
    }

    /** One more node decided, on an accepted graph. */
    lemma Decide(direct: set<Id>, done: set<Id>, stack: set<Id>, ran: map<Id, NodeResult>, ran': map<Id, NodeResult>,
                 init: Snapshot, open: seq<Open>, u: Id, was: States, pushed: set<Id>)
      requires Sound(plan) && direct == Handled(plan, Frame(open)) && u in direct && u !in done
      requires Startable(plan.net, direct, init.state) && OnlyAtOrUnder(plan, u, was, state)
      requires Progress(plan.net, direct, done, init.state, was, PortsOf(ran))
      requires Covered(plan.net, direct, done, stack + {u})
      requires Ready(plan.net, was, u) && Settled(plan.net, {u}, state, PortsOf(ran'))
      requires PortsOf(ran').Keys == if LiveIncoming(plan.net, was, u) then PortsOf(ran).Keys + {u}
          else PortsOf(ran).Keys
      requires forall v :: v in PortsOf(ran) ==> PortsOf(ran')[v] == PortsOf(ran)[v]
      requires stack <= pushed
      requires forall i :: 0 <= i < |plan.net.links| && plan.net.links[i].source == u
                           && plan.net.links[i].target in direct - (done + {u})
                           ==> !Ready(plan.net, state, plan.net.links[i].target) || plan.net.links[i].target in pushed
      ensures Progress(plan.net, direct, done + {u}, init.state, state, PortsOf(ran'))
      ensures Covered(plan.net, direct, done + {u}, pushed)
    {
      hide LiveIncoming, Settled, Startable, Handled, OnlyAtOrUnder, Progress;
      HandledAreMembers(plan, Frame(open));
      FrameEachLeaves(plan, Frame(open));
      DecideProgress(direct, done, ran, ran', init, open, u, was);
      CoverStep(plan.net, direct, done, init.state, state, PortsOf(ran'), stack + {u}, u, pushed);
    }

    lemma DecideProgress(direct: set<Id>, done: set<Id>, ran: map<Id, NodeResult>, ran': map<Id, NodeResult>,
                         init: Snapshot, open: seq<Open>, u: Id, was: States)
      requires Sound(plan) && direct == Members(plan, Frame(open)) && u in direct && u !in done
      requires Startable(plan.net, direct, init.state) && OnlyAtOrUnder(plan, u, was, state)
      requires EachLeavesWalk(plan.net, direct) && Progress(plan.net, direct, done, init.state, was, PortsOf(ran))
      requires Ready(plan.net, was, u) && Settled(plan.net, {u}, state, PortsOf(ran'))
      requires PortsOf(ran').Keys == if LiveIncoming(plan.net, was, u) then PortsOf(ran).Keys + {u}
          else PortsOf(ran).Keys
      requires forall v :: v in PortsOf(ran) ==> PortsOf(ran')[v] == PortsOf(ran)[v]
      ensures |state| == |plan.net.links|
      ensures Progress(plan.net, direct, done + {u}, init.state, state, PortsOf(ran'))
    {
      FrameEffect(plan, Frame(open), u, was, state);
      ProgressStep(plan.net, direct, done, init.state, was, PortsOf(ran), u, state, PortsOf(ran'));
    }

    /** A ready node with a live edge, or with no counting edge at all, runs. */
    method Handle(u: Id, direct: set<Id>, done: set<Id>, stack: seq<Id>, ghost ran0: map<Id, NodeResult>,
                  ghost blocks0: seq<Block>,
                  ghost init: Snapshot, ghost open: seq<Open>)
      returns (outcome: Option<Stop>, pushed: seq<Id>, ghost ran: map<Id, NodeResult>, ghost blocks: seq<Block>)
      requires Formed() && direct == Handled(plan, Frame(open)) && u in direct && u !in done && MayRun(open, u)
      requires accepted ==> Startable(plan.net, direct, init.state)
      requires Walking(direct, done, Elements(stack) + {u}, ran0, blocks0, init, open)
      requires Ready(plan.net, state, u) && LiveIncoming(plan.net, state, u)
      modifies this
      ensures WalkKept(init, open, blocks) && Orderly(TheRules(), blocks)
      ensures outcome.None? ==> Walking(direct, done + {u}, Elements(pushed), ran, blocks, init, open)
      ensures outcome.Some? ==> Blamed(TheRules(), outcome.value, log)
      decreases Unopened(open), 8, 0
    {
      hide Extended, Accounted, Orderly, Attempting, Attempted, Concluded, Conclusion, Progress, Covered, Blamed;
      hide Replay, StartsAt, Executions, Handled, Ready, LiveIncoming;
      ghost var was, held, tops, recorded, count := state, produced, ranStack, log, started;
      ghost var result, block;
      outcome, pushed, result, block := RunNode(u, direct, done, stack, open);
      ran, blocks := ran0[u := result], blocks0 + [block];
      FrameOnly(plan, Frame(open), u, was, state);
      InFrameCompose(plan, Frame(open), init.state, was, state);
      ValuesInFrame(plan, Frame(open), u, held, produced);
      FrameValuesCompose(plan, Frame(open), init.produced, held, produced);
      OneMoreBlock(blocks0, block);
      ExtendTwice(TheRules(), init.log, recorded, log, init.started, count, Context(open), Executions(blocks0),
          Listing(block));
      AddBlock(TheRules(), blocks0, ran0, block);
      if outcome.Some? {
        return;
      }
      TopCompose(init.sets, tops, ranStack, ran0.Keys, {u});
      if accepted {
        HandledAreMembers(plan, Frame(open));
        ValuesOfFrame(plan, Frame(open), u, ran0, held, produced);
        AddResult(plan.net, state, ran0, u, result, produced);
        Decide(direct, done, Elements(stack), ran0, ran, init, open, u, was, Elements(pushed));
      }
    }

    /** One round: forget the body's values, record the step, re-arm the body, and walk it. What starts in it is
        in order; if it ends by itself, what it returns is the values of the body nodes it ran, and those are on a
        sound plan the ones its own labelling runs. */
    method RunRound(u: Id, seqNo: nat, index: nat, ghost open: seq<Open>)
      returns (halt: Option<Halt>, record: map<string, Value>, ghost ran: map<Id, NodeResult>, ghost blocks: seq<Block>)
      requires Formed() && Shaped() && Recorded(open + [Open(seqNo, u, index)]) && FramesFit(open)
      requires MayRun(open, u) && u in plan.net.loops
      requires Rests(open)
      modifies this
      ensures Confined(u) && Recorded(open + [Open(seqNo, u, index + 1)]) && old(started) <= started
      ensures Extended(TheRules(), old(log), log, old(started), Some((seqNo, index)), Executions(blocks))
      ensures Orderly(TheRules(), blocks)
      ensures halt.None? ==>
        StartsAt(log, Some((seqNo, index))) == Executions(blocks) && Accounted(TheRules(), blocks, ran)
      ensures halt.None? && accepted ==> IsRound(plan, TheRules(), u, RoundEnd(old(state), state, blocks, ran, record))
      ensures halt.None? ==> Rests(open)
      ensures halt.Some? ==> Blamed(TheRules(), halt.value.outcome, log)
      decreases Unopened(open), 2
    {
      RoundIsNew(seqNo, index, u, open);
      var outcome, justRan;
      outcome, justRan, ran, blocks := WalkBody(u, seqNo, index, open);
      record := map[];
      if outcome.Some? {
        return Some(Halt(outcome.value, index)), record, ran, blocks;
      }
      halt := None;
      assert PortsOf(ran).Keys == ran.Keys;
      assert [] + Executions(blocks) == Executions(blocks);
      record := Round(justRan, ran);
    }

    method WalkBody(u: Id, seqNo: nat, index: nat, ghost open: seq<Open>)
      returns (outcome: Option<Stop>, justRan: set<Id>, ghost ran: map<Id, NodeResult>, ghost blocks: seq<Block>)
      requires Formed() && Shaped() && Recorded(open + [Open(seqNo, u, index)]) && FramesFit(open)
      requires MayRun(open, u) && u in plan.net.loops
      requires Rests(open)
      modifies this
      ensures Confined(u) && Recorded(open + [Open(seqNo, u, index + 1)]) && old(started) <= started
      ensures Extended(TheRules(), old(log), log, old(started), Some((seqNo, index)), Executions(blocks))
      ensures Orderly(TheRules(), blocks)
      ensures outcome.None? ==> Accounted(TheRules(), blocks, ran) && justRan == ran.Keys
      ensures outcome.None? && accepted ==> IsRoundWalk(plan, u, old(state), state, ran) && Produces(ran, produced)
      ensures outcome.None? ==> Rests(open)
      ensures outcome.Some? ==> Blamed(TheRules(), outcome.value, log)
      decreases Unopened(open), 1
    {
      hide Extended, Accounted, Orderly, Blamed, Replay, StartsAt, Executions, Labelled, Startable, Armed;
      hide AllAtRest, RestsRecorded, Sound;
      RoundIsNew(seqNo, index, u, open);
      ghost var was, values := state, produced;
      BeginRound(u, seqNo, index, open);
      ghost var armed, dropped, began := state, produced, log;
      ghost var inner := open + [Open(seqNo, u, index + 1)];
      OpenOneMore(open, Open(seqNo, u, index + 1));
      outcome, ran, blocks := Walk(Body(plan, u), None, inner);
      UnderEffect(plan, u, was, armed, state);
      UnderValues(plan, u, values, dropped, produced);
      ExtendTwice(TheRules(), old(log), began, log, old(started), old(started), Some((seqNo, index)), [],
          Executions(blocks));
      assert [] + Executions(blocks) == Executions(blocks);
      justRan := EndRound(old(ranStack), old(frames));
      if outcome.None? {
        FirstStarts(TheRules(), old(log), log, old(started), Some((seqNo, index)), blocks);
        RoundRests(u, was, open, inner, seqNo, index, ran, blocks);
        rest := rest[u := Rest(blocks, ran)];
      }
    }

    method BeginRound(u: Id, seqNo: nat, index: nat, ghost open: seq<Open>)
      requires Formed() && Shaped() && Recorded(open + [Open(seqNo, u, index)])
      requires MayRun(open, u) && Rests(open)
      modifies this`produced, this`log, this`state, this`ranStack, this`frames
      ensures Shaped() && Recorded(open + [Open(seqNo, u, index + 1)]) && FramesFit(open + [Open(seqNo, u, index + 1)])
      ensures Extended(TheRules(), old(log), log, started, Some((seqNo, index)), [])
      ensures state == Armed(plan, u, old(state)) && OnlyAtOrUnder(plan, u, old(state), state)
      ensures accepted ==> Startable(plan.net, Members(plan, Some(u)), state)
      ensures ValuesKept(plan, u, old(produced), produced) && Rests(open + [Open(seqNo, u, index + 1)])
      ensures frames == old(frames) + [(seqNo, index)] && ranStack == old(ranStack) + [{}]
    {
      hide Extended, RestsRecorded, AllAtRest, StartsAt, Nested, Startable;
      var body := Body(plan, u);
      produced := (produced - body)[u := outside.step(seqNo, index)];
      DropKeepsOthers(plan, u, old(produced), produced, body);
      RoundIsNew(seqNo, index, u, open);
      OnRound(seqNo, index, u, open);
      ExtendOne(TheRules(), old(log), started, RoundBegan(seqNo, index), Some((seqNo, index)));
      ArmEffect(plan, u, state);
      ArmRests(seqNo, index, u, open, old(log));
      if accepted { ArmingForgetsThePast(plan, u, state, state); }
      Arm(u);
      ranStack := ranStack + [{}];
      frames := frames + [(seqNo, index)];
    }

    lemma ArmRests(seqNo: nat, index: nat, u: Id, open: seq<Open>, before: seq<Event>)
      requires Formed() && Shaped() && MayRun(open, u) && before <= log
      requires RestsRecorded(TheRules(), before, rest) && (accepted ==> AllAtRest(plan, state, rest, Nodes(open)))
      ensures RestsRecorded(TheRules(), log, rest)
      ensures accepted ==> AllAtRest(plan, Armed(plan, u, state), rest, Nodes(open + [Open(seqNo, u, index + 1)]))
    {
      RestsStayRecorded(TheRules(), before, log, rest);
      if accepted {
        CanStart(open, u);
        ArmingLeavesRest(plan, state, rest, open, u);
        assert Nodes(open + [Open(seqNo, u, index + 1)]) == Nodes(open) + [u];
      }
    }

    lemma RoundRests(u: Id, before: States, open: seq<Open>, inner: seq<Open>, seqNo: nat, index: nat,
                     ran: map<Id, NodeResult>, blocks: seq<Block>)
      requires Formed() && inner == open + [Open(seqNo, u, index + 1)] && Rests(inner)
      requires Accounted(TheRules(), blocks, ran) && StartsAt(log, Some((seqNo, index))) == Executions(blocks)
      requires accepted ==> IsRoundWalk(plan, u, before, state, ran)
      ensures RestsRecorded(TheRules(), log, rest[u := Rest(blocks, ran)])
      ensures accepted ==> AllAtRest(plan, state, rest[u := Rest(blocks, ran)], Nodes(open))
    {
      RoundIsRecorded(TheRules(), log, rest, u, Some((seqNo, index)), Rest(blocks, ran));
      if accepted {
        assert Nodes(inner) == Nodes(open) + [u];
        RoundComesToRest(plan, before, state, rest, Nodes(open), u, Rest(blocks, ran));
      }
    }

    method EndRound(ghost sets: seq<set<Id>>, ghost outer: seq<(nat, nat)>) returns (justRan: set<Id>)
      requires LowerKept(sets + [{}], ranStack) && |frames| == |outer| + 1 && frames[..|outer|] == outer
      modifies this`ranStack, this`frames
      ensures ranStack == sets && frames == outer
      ensures justRan == old(ranStack)[|old(ranStack)| - 1]
    {
      frames := frames[..|frames| - 1];
      justRan := ranStack[|ranStack| - 1];
      ranStack := ranStack[..|ranStack| - 1];
    }

    method Round(justRan: set<Id>, ghost ran: map<Id, NodeResult>) returns (record: map<string, Value>)
      requires Formed() && justRan == ran.Keys <= plan.ids
      ensures Produces(ran, produced) ==> IsRecord(settings, ran, record)
    {
      record := map[];
      var left := justRan;
      while left != {}
        invariant left <= justRan
        invariant Produces(ran, produced) && DistinctRefs(settings, ran) ==>
                    forall v :: v in justRan - left ==>
                        settings[v].ref in record && record[settings[v].ref] == ran[v].output
        invariant forall key :: key in record ==> exists v :: v in justRan && settings[v].ref == key
      {
        var v :| v in left;
        record := record[settings[v].ref := if v in produced then produced[v] else Null];
        left := left - {v};
      }
    }
  }
}
