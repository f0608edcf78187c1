/** Results, policies and the pure decisions of the engine. */
module EngineTypes {
  import opened Digraph
  import opened ChannelGraph
  import opened Labelling
  import opened Plan
  import opened Journal

  datatype Status = Succeeded | Failed | Skipped | Cancelled

  datatype Fault = NoFault | NodeFailed | RunTimeout | BodyStopped | TriggerInvalid | OtherFault(code: string)

  datatype Value = Null | SkipNote(reason: Fault) | ErrorNote(fault: Fault) | Data(tag: nat)

  datatype NodeResult = NodeResult(status: Status, output: Value, fault: Fault, ports: Option<set<Port>>,
      minimumWait: Option<real>)

  datatype OnError = StopRun | ContinueRun | ErrorOutput

  /** A configured number: a whole number, or something the engine does not accept as one. */
  datatype Raw = Whole(n: int) | NotWhole

  datatype Settings = Settings(ref: string, onError: OnError, retry: Option<(Raw, Raw)>, known: bool,
      declaresError: bool, y: real, x: real)

  datatype RunOutcome = RunOutcome(status: Status, fault: Fault, failedNode: Option<Id>, stoppedNode: Option<Id>,
      skipped: seq<Id>)

  /** An outcome that ends a run before completion: failed or cancelled, at exactly one named node. */
  type Stop = o: RunOutcome |
    (o.status == Failed || o.status == Cancelled) && (o.failedNode.Some? <==> o.stoppedNode.None?)
    witness RunOutcome(Cancelled, NoFault, None, Some(Id("")), [])

  /** A body walk that stopped, with the round it stopped in. */
  datatype Halt = Halt(outcome: Stop, index: nat)

  datatype Interrupt = GoOn | CancelOrSupersede | TimedOut

  /** Everything the engine asks of the outside. Executions are told apart by their sequence number and
      interruption checks by their position, so arbitrary functions cover every behaviour. */
  datatype Outside = Outside(
    execute: (Id, nat) -> NodeResult,
    rounds: nat -> nat,
    step: (nat, nat) -> Value,
    interrupt: nat -> Interrupt,
    pausePolls: nat -> nat)

  const RETRY_WAIT_CAP: real := 3600.0

  function RetryBudget(s: Settings): (budget: (nat, nat))
    ensures budget.0 >= 1
  {
    if s.retry.None? then (1, 0)
    else
      var (tries, wait) := s.retry.value;
      (if tries.Whole? && tries.n >= 1 then tries.n else 1, if wait.Whole? && wait.n >= 0 then wait.n else 0)
  }

  function RetryPause(wait: nat, minimum: Option<real>): real {
    if minimum.None? then wait as real
    else
      var longer := if minimum.value > wait as real then minimum.value else wait as real;
      if longer < RETRY_WAIT_CAP then longer else RETRY_WAIT_CAP
  }

  /** What a failed result becomes under the node's error policy, or the outcome that ends the run. */
  function PolicyResult(s: Settings, r: NodeResult): NodeResult {
    if r.status != Failed then r
    else if s.onError == ContinueRun then r.(output := Null)
    else if s.onError == ErrorOutput && s.declaresError then
      r.(output := ErrorNote(if r.fault == NoFault then NodeFailed else r.fault), ports := Some({ErrorPort}))
    else r
  }

  predicate EndsRun(s: Settings, r: NodeResult) {
    r.status == Failed && s.onError != ContinueRun && !(s.onError == ErrorOutput && s.declaresError)
  }

  /** The result a container execution gets when one of its rounds stopped the run. */
  function RoundStopResult(halt: Halt): NodeResult {
    if halt.outcome.failedNode.Some? then NodeResult(Failed, Null, BodyStopped, None, None)
    else if halt.outcome.status == Cancelled then NodeResult(Cancelled, Null, NoFault, None, None)
    else NodeResult(Failed, Null, halt.outcome.fault, None, None)
  }

  /** What every execution of a run depends on: which nodes are containers, the settings, and the outside. */
  datatype Rules = Rules(loops: set<Id>, settings: map<Id, Settings>, outside: Outside)

  /** What the n-th execution, one of u, yields unless a round inside it stops the run: an unknown type fails,
      a skip without output notes its reason. */
  function AttemptResult(rules: Rules, u: Id, n: nat): NodeResult
    requires u in rules.settings
  {
    SkipNoted(if u in rules.loops || rules.settings[u].known then rules.outside.execute(u, n)
              else NodeResult(Failed, Null, NodeFailed, None, None))
  }

  function SkipNoted(r: NodeResult): NodeResult {
    if r.status == Skipped && r.output == Null then r.(output := SkipNote(r.fault)) else r
  }

  /** Attempts of one node, perhaps not over: no more than its budget, and each but the last failed. */
  ghost predicate Attempting(rules: Rules, b: Block) {
    && b.node in rules.settings && |b.numbers| <= RetryBudget(rules.settings[b.node]).0
    && forall i :: 0 <= i < |b.numbers| - 1 ==> AttemptResult(rules, b.node, b.numbers[i]).status == Failed
  }

  function LastResult(rules: Rules, b: Block): NodeResult
    requires b.node in rules.settings && b.numbers != []
  {
    AttemptResult(rules, b.node, b.numbers[|b.numbers| - 1])
  }

  /** The attempts are over: the last did not fail, or the budget is spent. */
  ghost predicate Attempted(rules: Rules, b: Block) {
    && Attempting(rules, b) && b.numbers != []
    && (LastResult(rules, b).status == Failed ==> |b.numbers| == RetryBudget(rules.settings[b.node]).0)
  }

  /** The attempts are over and the node's policy lets the run go on. */
  ghost predicate Concluded(rules: Rules, b: Block) {
    Attempted(rules, b) && !EndsRun(rules.settings[b.node], LastResult(rules, b))
  }

  /** The result a node leaves behind: its policy applied to its last attempt. */
  function Conclusion(rules: Rules, b: Block): NodeResult
    requires b.node in rules.settings && b.numbers != []
  {
    PolicyResult(rules.settings[b.node], LastResult(rules, b))
  }

  lemma NoAttempts(rules: Rules, u: Id)
    requires u in rules.settings
    ensures Attempting(rules, Block(u, [])) && Listing(Block(u, [])) == []
  {}

  lemma MoreAttempts(rules: Rules, u: Id, numbers: seq<nat>, next: seq<nat>)
    requires Attempting(rules, Block(u, numbers)) && numbers != []
    requires LastResult(rules, Block(u, numbers)).status == Failed
    requires |numbers| < RetryBudget(rules.settings[u]).0 && |next| <= 1
    ensures Attempting(rules, Block(u, numbers + next))
    ensures Listing(Block(u, numbers + next)) == Listing(Block(u, numbers)) + Listing(Block(u, next))
  {}

  ghost predicate DistinctNodes(blocks: seq<Block>) {
    forall i, j :: 0 <= i < j < |blocks| ==> blocks[i].node != blocks[j].node
  }

  /** The starts at one place of any run, however it ended: one block per node, no node twice, and only the last
      block may be unfinished or have ended the run. */
  ghost predicate Orderly(rules: Rules, blocks: seq<Block>) {
    && DistinctNodes(blocks)
    && (forall k :: 0 <= k < |blocks| - 1 ==> Concluded(rules, blocks[k]))
    && (blocks != [] ==> Attempting(rules, blocks[|blocks| - 1]))
  }

  /** The starts of one finished walk: exactly the nodes of `ran` were started, and each left the result of its
      last attempt under its policy. */
  ghost predicate Accounted(rules: Rules, blocks: seq<Block>, ran: map<Id, NodeResult>) {
    && DistinctNodes(blocks)
    && (forall v :: v in ran <==> exists k :: 0 <= k < |blocks| && blocks[k].node == v)
    && (forall k :: 0 <= k < |blocks| ==>
        Concluded(rules, blocks[k]) && ran[blocks[k].node] == Conclusion(rules, blocks[k]))
  }

  lemma NothingToAccount(rules: Rules)
    ensures Accounted(rules, [], map[])
  {}

  lemma AccountedIsOrderly(rules: Rules, blocks: seq<Block>, ran: map<Id, NodeResult>)
    requires Accounted(rules, blocks, ran)
    ensures Orderly(rules, blocks)
  {}

  lemma AddBlock(rules: Rules, blocks: seq<Block>, ran: map<Id, NodeResult>, b: Block)
    requires Accounted(rules, blocks, ran) && b.node !in ran && Attempting(rules, b)
    ensures Orderly(rules, blocks + [b])
    ensures Concluded(rules, b) ==> Accounted(rules, blocks + [b], ran[b.node := Conclusion(rules, b)])
  {
    hide AttemptResult, EndsRun, PolicyResult;
    var more := blocks + [b];
    forall k | 0 <= k < |blocks| ensures more[k] == blocks[k] && blocks[k].node in ran {}
    if Concluded(rules, b) {
      var ran' := ran[b.node := Conclusion(rules, b)];
      forall v | v in ran' ensures exists k :: 0 <= k < |more| && more[k].node == v {
        if v == b.node {
          assert more[|blocks|].node == v;
        } else {
          var k :| 0 <= k < |blocks| && blocks[k].node == v;
          assert more[k].node == v;
        }
      }
    }
  }

  /** These starts are in order: see Orderly. */
  ghost predicate InBlocks(rules: Rules, starts: seq<(Id, nat)>) {
    exists blocks :: Orderly(rules, blocks) && starts == Executions(blocks)
  }

  lemma NothingStarted(rules: Rules)
    ensures InBlocks(rules, [])
  {
    assert Orderly(rules, []);
    assert Executions([]) == [];
  }

  /** The record grew by these starts at one place, and what started in rounds of executions numbered above n
      is in order. */
  ghost predicate Extended(rules: Rules, a: seq<Event>, b: seq<Event>, n: nat, at: Place, starts: seq<(Id, nat)>) {
    && Earlier(at, n) && Grew(a, b, n, at, starts)
    && forall c :: !Earlier(c, n) ==> InBlocks(rules, StartsAt(b, c))
  }

  lemma ExtendOne(rules: Rules, log: seq<Event>, n: nat, e: Event, at: Place)
    requires Replay(log).Some? && Replay(log).value.started <= n && Earlier(at, n)
    requires e.Started? ==> e.context == at
    ensures Extended(rules, log, log + [e], n, at, if e.Started? then [(e.node, e.seqNo)] else [])
  {
    GrewByOne(log, e, n, at);
    forall c | !Earlier(c, n) ensures InBlocks(rules, StartsAt(log + [e], c)) {
      UnbegunRoundIsEmpty(log, c.value.0, c.value.1);
      StartsAtOne(log, e, c);
      NothingStarted(rules);
    }
  }

  lemma ExtendNone(rules: Rules, log: seq<Event>, n: nat, at: Place)
    requires Replay(log).Some? && Earlier(at, n) && Replay(log).value.started <= n
    ensures Extended(rules, log, log, n, at, [])
  {
    forall c | !Earlier(c, n) ensures InBlocks(rules, StartsAt(log, c)) {
      UnbegunRoundIsEmpty(log, c.value.0, c.value.1);
      NothingStarted(rules);
    }
  }

  lemma ExtendTwice(rules: Rules, a: seq<Event>, b: seq<Event>, c: seq<Event>, n: nat, m: nat, at: Place,
                     x: seq<(Id, nat)>, y: seq<(Id, nat)>)
    requires n <= m && Extended(rules, a, b, n, at, x) && Extended(rules, b, c, m, at, y)
    ensures Extended(rules, a, c, n, at, x + y)
  {
    GrewTwice(a, b, c, n, m, at, x, y);
    forall p | !Earlier(p, n) ensures InBlocks(rules, StartsAt(c, p)) {
      if Earlier(p, m) { assert StartsAt(c, p) == StartsAt(b, p); }
    }
  }

  /** A round walked inside execution s is nothing to the places around s. */
  lemma ExtendInside(rules: Rules, a: seq<Event>, b: seq<Event>, c: seq<Event>, n: nat, m: nat, at: Place,
                      inner: Place, blocks: seq<Block>)
    requires Extended(rules, a, b, n, at, []) && Extended(rules, b, c, m, inner, Executions(blocks))
    requires n <= m && !Earlier(inner, n) && StartsAt(b, inner) == [] && Orderly(rules, blocks)
    ensures Extended(rules, a, c, n, at, [])
  {
    assert StartsAt(c, inner) == [] + Executions(blocks);
    assert [] + Executions(blocks) == Executions(blocks);
    forall p | !Earlier(p, n) ensures InBlocks(rules, StartsAt(c, p)) {
      if p != inner && Earlier(p, m) { assert StartsAt(c, p) == StartsAt(b, p); }
    }
    forall p | p != at && Earlier(p, n) ensures StartsAt(c, p) == StartsAt(a, p) {
      assert StartsAt(c, p) == StartsAt(b, p);
    }
    assert StartsAt(c, at) == StartsAt(b, at);
  }

  lemma FirstStarts(rules: Rules, a: seq<Event>, b: seq<Event>, n: nat, at: Place, blocks: seq<Block>)
    requires Extended(rules, a, b, n, at, Executions(blocks)) && StartsAt(a, at) == []
    ensures StartsAt(b, at) == Executions(blocks)
  {
    assert [] + Executions(blocks) == Executions(blocks);
  }

  function PortsOf(ran: map<Id, NodeResult>): map<Id, Option<set<Port>>> {
    map v | v in ran :: ran[v].ports
  }

  function OutIndices(links: seq<Link>, v: Id): (out: seq<nat>)
    ensures forall i: nat :: i in out <==> i < |links| && links[i].source == v
  {
    if links == [] then []
    else
      var rest := OutIndices(links[..|links| - 1], v);
      if links[|links| - 1].source == v then rest + [|links| - 1] else rest
  }

  function Killed(net: Net, st: States, u: Id): (k: States)
    requires |st| == |net.links|
    ensures |k| == |st|
  {
    seq(|st|, i requires 0 <= i < |st| => if net.links[i].source == u then Dead else st[i])
  }

  /** The outgoing edges of u after its result, leaving the skipped ports alone. */
  function SettledBy(net: Net, st: States, u: Id, ports: Option<set<Port>>, skip: set<Port>): (k: States)
    requires |st| == |net.links|
    ensures |k| == |st|
  {
    seq(|st|, i requires 0 <= i < |st| =>
      if net.links[i].source == u && net.links[i].sourcePort !in skip
      then (if LivePort(ports, net.links[i].sourcePort) then Live else Dead) else st[i])
  }

  /** Values of nodes neither u nor under it are untouched. */
  ghost predicate ValuesKept(plan: Plan, u: Id, a: map<Id, Value>, b: map<Id, Value>) {
    forall x {:trigger x in a} {:trigger x in b} :: x != u && !Under(plan, u, x) ==>
      (x in a <==> x in b) && (x in a ==> a[x] == b[x])
  }

  ghost predicate FrameValuesKept(plan: Plan, frame: Option<Id>, a: map<Id, Value>, b: map<Id, Value>) {
    frame.Some? ==> forall x {:trigger x in a} {:trigger x in b} :: !Under(plan, frame.value, x) ==>
      (x in a <==> x in b) && (x in a ==> a[x] == b[x])
  }

  ghost predicate Produces(ran: map<Id, NodeResult>, produced: map<Id, Value>) {
    forall v :: v in ran ==> v in produced && produced[v] == ran[v].output
  }

  /** On a sound plan what runs under one node of a frame leaves the values of the frame's other nodes alone. */
  lemma ValuesOfFrame(plan: Plan, frame: Option<Id>, u: Id, ran: map<Id, NodeResult>, a: map<Id, Value>,
                      b: map<Id, Value>)
    requires Sound(plan) && u in Members(plan, frame) && ValuesKept(plan, u, a, b)
    requires ran.Keys <= Members(plan, frame) && Produces(ran, a) && u !in ran
    ensures Produces(ran, b)
  {
    forall v | v in ran ensures v in b && b[v] == a[v] {
      if Under(plan, u, v) { UnderLeavesFrame(plan, u, v); }
    }
  }

  lemma ValuesInFrame(plan: Plan, frame: Option<Id>, u: Id, a: map<Id, Value>, b: map<Id, Value>)
    requires u in Handled(plan, frame) && ValuesKept(plan, u, a, b)
    ensures FrameValuesKept(plan, frame, a, b)
  {
    if frame.Some? {
      forall x | !Under(plan, frame.value, x) ensures x != u && !Under(plan, u, x) {
        UnderStep(plan, frame.value, u);
        if Under(plan, u, x) { PrecedesTransitive(Parents(plan), frame.value, u, x); }
      }
    }
  }

  /** Effects of one handled node compose. */
  lemma EffectsCompose(plan: Plan, u: Id, a: States, b: States, c: States)
    requires OnlyAtOrUnder(plan, u, a, b) && OnlyAtOrUnder(plan, u, b, c)
    ensures OnlyAtOrUnder(plan, u, a, c)
  {}

  lemma ValuesCompose(plan: Plan, u: Id, a: map<Id, Value>, b: map<Id, Value>, c: map<Id, Value>)
    requires ValuesKept(plan, u, a, b) && ValuesKept(plan, u, b, c)
    ensures ValuesKept(plan, u, a, c)
  {}

  /** Killing or settling a node touches its own edges only, and labels them. */
  lemma KillLabels(plan: Plan, st: States, u: Id, ran: map<Id, Option<set<Port>>>)
    requires |st| == |plan.net.links| && u !in ran
    ensures OnlyAtOrUnder(plan, u, st, Killed(plan.net, st, u))
    ensures Settled(plan.net, {u}, Killed(plan.net, st, u), ran)
  {}

  lemma SettleLabels(plan: Plan, st: States, u: Id, ports: Option<set<Port>>, ran: map<Id, Option<set<Port>>>)
    requires |st| == |plan.net.links| && u in ran && ran[u] == ports
    ensures var st' := SettledBy(plan.net, st, u, ports, if u in plan.net.loops then {Each} else {});
      OnlyAtOrUnder(plan, u, st, st') && Settled(plan.net, {u}, st', ran)
  {}

  lemma AddResult(net: Net, st: States, ran: map<Id, NodeResult>, u: Id, result: NodeResult, produced: map<Id, Value>)
    requires Produces(ran, produced) && u in produced && produced[u] == result.output
    ensures Produces(ran[u := result], produced) && ran[u := result].Keys == ran.Keys + {u}
    requires |st| == |net.links| && u !in ran && Settled(net, {u}, st, map[u := result.ports])
    ensures Settled(net, {u}, st, PortsOf(ran[u := result]))
    ensures PortsOf(ran[u := result]).Keys == PortsOf(ran).Keys + {u}
    ensures forall v :: v in PortsOf(ran) ==> PortsOf(ran[u := result])[v] == PortsOf(ran)[v]
  {}

  lemma DropKeepsOthers(plan: Plan, u: Id, before: map<Id, Value>, after: map<Id, Value>, body: set<Id>)
    requires body == Body(plan, u)
    requires forall x ::
      x != u && x !in body ==> (x in before <==> x in after) && (x in before ==> before[x] == after[x])
    ensures ValuesKept(plan, u, before, after)
  {
    forall x | x in body ensures Under(plan, u, x) {
      UnderStep(plan, u, x);
    }
  }

  lemma UnderEffect(plan: Plan, u: Id, a: States, b: States, c: States)
    requires OnlyAtOrUnder(plan, u, a, b) && OnlyInFrame(plan, Some(u), b, c)
    ensures OnlyAtOrUnder(plan, u, a, c)
  {}

  lemma UnderValues(plan: Plan, u: Id, a: map<Id, Value>, b: map<Id, Value>, c: map<Id, Value>)
    requires ValuesKept(plan, u, a, b) && FrameValuesKept(plan, Some(u), b, c)
    ensures ValuesKept(plan, u, a, c)
  {}

  lemma FrameValuesCompose(plan: Plan, frame: Option<Id>, a: map<Id, Value>, b: map<Id, Value>, c: map<Id, Value>)
    requires FrameValuesKept(plan, frame, a, b) && FrameValuesKept(plan, frame, b, c)
    ensures FrameValuesKept(plan, frame, a, c)
  {}

  /** The set of the current walk grew by `added`; the sets of the walks around it are untouched. */
  ghost predicate TopGrew(a: seq<set<Id>>, b: seq<set<Id>>, added: set<Id>) {
    LowerKept(a, b) && b[|b| - 1] == a[|a| - 1] + added
  }

  ghost predicate LowerKept(a: seq<set<Id>>, b: seq<set<Id>>) {
    a != [] && |b| == |a| && forall i :: 0 <= i < |a| - 1 ==> b[i] == a[i]
  }

  lemma TopCompose(a: seq<set<Id>>, b: seq<set<Id>>, c: seq<set<Id>>, x: set<Id>, y: set<Id>)
    requires TopGrew(a, b, x) && TopGrew(b, c, y)
    ensures TopGrew(a, c, x + y)
  {}

  lemma InFrameCompose(plan: Plan, frame: Option<Id>, a: States, b: States, c: States)
    requires OnlyInFrame(plan, frame, a, b) && OnlyInFrame(plan, frame, b, c)
    ensures OnlyInFrame(plan, frame, a, c)
  {}

  /** What a walk began with. */
  datatype Snapshot = Snapshot(state: States, produced: map<Id, Value>, sets: seq<set<Id>>, frames: seq<(nat, nat)>,
                               log: seq<Event>, started: nat)

  /** A node blamed for the failure of a run was started, and its result in that execution ends the run. */
  ghost predicate Blamed(rules: Rules, outcome: RunOutcome, log: seq<Event>) {
    outcome.failedNode.Some? ==> exists e :: e in log && Blames(rules, e, outcome.failedNode.value)
  }

  predicate Blames(rules: Rules, e: Event, v: Id) {
    e.Started? && e.node == v && v in rules.settings && EndsRun(rules.settings[v], AttemptResult(rules, v, e.seqNo))
  }

  lemma StillBlamed(rules: Rules, outcome: RunOutcome, a: seq<Event>, b: seq<Event>)
    requires Blamed(rules, outcome, a) && a <= b
    ensures Blamed(rules, outcome, b)
  {
    if outcome.failedNode.Some? {
      var e :| e in a && Blames(rules, e, outcome.failedNode.value);
      assert e in b;
    }
  }

  lemma LastIsBlamed(rules: Rules, outcome: RunOutcome, log: seq<Event>, before: seq<Event>, n: nat, at: Place,
                     b: Block)
    requires Grew(before, log, n, at, Listing(b)) && Attempted(rules, b)
    requires EndsRun(rules.settings[b.node], LastResult(rules, b))
    requires outcome.failedNode == Some(b.node)
    ensures Blamed(rules, outcome, log)
  {
    var last := b.numbers[|b.numbers| - 1];
    assert Listing(b)[|b.numbers| - 1] == (b.node, last);
    assert (b.node, last) in StartsAt(log, at);
    StartsAreRecorded(log, at, b.node, last);
    assert Blames(rules, Started(last, b.node, at), b.node);
  }

  /** The walk of a round labels its body as an armed body, whatever the edges were before. */
  ghost predicate IsRoundWalk(plan: Plan, u: Id, before: States, after: States, ran: map<Id, NodeResult>) {
    && |before| == |after| == |plan.net.links|
    && Labelled(plan.net, Members(plan, Some(u)), after, PortsOf(ran))
    && SameBoundary(plan.net, Members(plan, Some(u)), Armed(plan, u, before), after)
  }

  ghost predicate DistinctRefs(settings: map<Id, Settings>, ran: map<Id, NodeResult>)
    requires ran.Keys <= settings.Keys
  {
    forall a, b :: a in ran && b in ran && settings[a].ref == settings[b].ref ==> a == b
  }

  /** The record of a round holds the value of every body node that ran, under its ref, and nothing else. */
  ghost predicate IsRecord(settings: map<Id, Settings>, ran: map<Id, NodeResult>, record: map<string, Value>) {
    && ran.Keys <= settings.Keys
    && (DistinctRefs(settings, ran) ==>
          forall v :: v in ran ==> settings[v].ref in record && record[settings[v].ref] == ran[v].output)
    && (forall key :: key in record ==> exists v :: v in ran && settings[v].ref == key)
  }

  /** Runs whose executions give the same results whatever their numbers, under policies that agree. Positions,
      retries, rounds, waits and interruptions may differ. */
  ghost predicate SameConduct(a: Rules, b: Rules) {
    && a.loops == b.loops && a.settings.Keys == b.settings.Keys
    && (forall v :: v in a.settings ==> SamePolicy(a.settings[v], b.settings[v]))
    && forall v: Id, m: nat, n: nat {:trigger a.outside.execute(v, m), b.outside.execute(v, n)} ::
         a.outside.execute(v, m) == b.outside.execute(v, n)
  }

  predicate SamePolicy(a: Settings, b: Settings) {
    a.onError == b.onError && a.known == b.known && a.declaresError == b.declaresError
  }

  lemma SameConclusion(a: Rules, b: Rules, x: Block, y: Block)
    requires SameConduct(a, b) && x.node == y.node && Attempted(a, x) && Attempted(b, y)
    ensures Conclusion(a, x) == Conclusion(b, y)
  {
    assert a.outside.execute(x.node, x.numbers[|x.numbers| - 1]) ==
        b.outside.execute(y.node, y.numbers[|y.numbers| - 1]);
  }

  /** Such runs leave the same result at every node that ran in both. */
  lemma SameResults(a: Rules, b: Rules, blocksA: seq<Block>, ranA: map<Id, NodeResult>, blocksB: seq<Block>,
                    ranB: map<Id, NodeResult>)
    requires SameConduct(a, b) && Accounted(a, blocksA, ranA) && Accounted(b, blocksB, ranB)
    ensures forall v :: v in ranA && v in ranB ==> ranA[v] == ranB[v]
  {
    forall v | v in ranA && v in ranB ensures ranA[v] == ranB[v] {
      var i :| 0 <= i < |blocksA| && blocksA[i].node == v;
      var j :| 0 <= j < |blocksB| && blocksB[j].node == v;
      SameConclusion(a, b, blocksA[i], blocksB[j]);
    }
  }

  /** The record of a round is determined by what its nodes left, as long as no two of them share a ref. */
  lemma RecordsAgree(settings: map<Id, Settings>, ran: map<Id, NodeResult>, a: map<string, Value>,
                     b: map<string, Value>)
    requires IsRecord(settings, ran, a) && IsRecord(settings, ran, b) && DistinctRefs(settings, ran)
    ensures a == b
  {
    forall key | key in a ensures key in b && a[key] == b[key] {
      var v :| v in ran && settings[v].ref == key;
    }
    forall key | key in b ensures key in a {
      var v :| v in ran && settings[v].ref == key;
    }
  }

  /** What ran before v, and with what result, is the same in both. */
  ghost predicate SamePast(flow: Relation, v: Id, a: map<Id, NodeResult>, b: map<Id, NodeResult>) {
    forall u :: Precedes(flow, u, v) ==> (u in a <==> u in b) && (u in a ==> a[u] == b[u])
  }

  /** A node that ran in both after the same past left the same result. */
  ghost predicate FromThePast(flow: Relation, a: map<Id, NodeResult>, b: map<Id, NodeResult>) {
    forall v :: v in a && v in b && SamePast(flow, v, a, b) ==> a[v] == b[v]
  }

  predicate Differs(a: map<Id, NodeResult>, b: map<Id, NodeResult>, v: Id) {
    if v in a then v !in b || a[v] != b[v] else v in b
  }

  /** A node that is decided or ends differently follows another such node. */
  lemma DifferenceComesFromBefore(net: Net, direct: set<Id>, a: States, ranA: map<Id, NodeResult>,
                                  b: States, ranB: map<Id, NodeResult>, v: Id) returns (u: Id)
    requires |a| == |b| == |net.links| && EachLeavesWalk(net, direct) && SameBoundary(net, direct, a, b)
    requires Labelled(net, direct, a, PortsOf(ranA)) && Labelled(net, direct, b, PortsOf(ranB))
    requires FromThePast(LinkRelation(net), ranA, ranB) && v in direct && Differs(ranA, ranB, v)
    ensures u in direct && Differs(ranA, ranB, u) && Precedes(LinkRelation(net), u, v)
  {
    assert PortsOf(ranA).Keys == ranA.Keys && PortsOf(ranB).Keys == ranB.Keys;
    if v in ranA && v in ranB {
      u :| Precedes(LinkRelation(net), u, v) && !((u in ranA <==> u in ranB) && (u in ranA ==> ranA[u] == ranB[u]));
    } else {
      var i := DifferenceHasACause(net, direct, a, b, v);
      u := net.links[i].source;
      assert (u, v) in LinkRelation(net);
      EdgePrecedes(LinkRelation(net), u, v);
      assert a[i] == Label(net, PortsOf(ranA), i) && b[i] == Label(net, PortsOf(ranB), i);
    }
  }

  lemma NeitherRan(net: Net, direct: set<Id>, a: States, ranA: map<Id, NodeResult>, b: States,
                   ranB: map<Id, NodeResult>, v: Id)
    requires |a| == |b| == |net.links| && v !in direct
    requires Labelled(net, direct, a, PortsOf(ranA)) && Labelled(net, direct, b, PortsOf(ranB))
    ensures !Differs(ranA, ranB, v)
  {
    assert v in ranA ==> v in PortsOf(ranA);
    assert v in ranB ==> v in PortsOf(ranB);
  }

  lemma NoDifference(a: map<Id, NodeResult>, b: map<Id, NodeResult>)
    requires forall v :: !Differs(a, b, v)
    ensures a == b
  {
    forall v ensures v in a <==> v in b {
      assert !Differs(a, b, v);
    }
    forall v | v in a ensures a[v] == b[v] {
      assert !Differs(a, b, v);
    }
  }

  /** Even when results may depend on everything that ran before, the labelling is unique. */
  lemma PastDecides(net: Net, direct: set<Id>, a: States, ranA: map<Id, NodeResult>, b: States,
                    ranB: map<Id, NodeResult>)
    requires |a| == |b| == |net.links| && !Cyclic(LinkRelation(net)) && EachLeavesWalk(net, direct)
    requires Labelled(net, direct, a, PortsOf(ranA)) && Labelled(net, direct, b, PortsOf(ranB))
    requires SameBoundary(net, direct, a, b) && FromThePast(LinkRelation(net), ranA, ranB)
    ensures ranA == ranB
  {
    hide Precedes, FromThePast, Differs;
    var differ := set v | v in direct && Differs(ranA, ranB, v);
    forall v | v in differ ensures HasEarlier(LinkRelation(net), differ, v) {
      var u := DifferenceComesFromBefore(net, direct, a, ranA, b, ranB, v);
      assert u in differ;
    }
    if differ != {} { PrecededInsideMakesACycle(LinkRelation(net), differ); }
    forall v ensures !Differs(ranA, ranB, v) {
      assert v !in differ;
      if v !in direct { NeitherRan(net, direct, a, ranA, b, ranB, v); }
    }
    NoDifference(ranA, ranB);
  }

  /** A round that ended by itself: the states before and after it, what was started in it, what ran, and what it
      returned. */
  datatype RoundEnd = RoundEnd(before: States, after: States, blocks: seq<Block>, ran: map<Id, NodeResult>,
                               record: map<string, Value>)

  ghost predicate IsRound(plan: Plan, rules: Rules, loop: Id, r: RoundEnd) {
    && IsRoundWalk(plan, loop, r.before, r.after, r.ran) && IsRecord(rules.settings, r.ran, r.record)
    && Accounted(rules, r.blocks, r.ran)
  }

  /** Two complete rounds of one container, in one run or in two, whatever ran before them: when each body node that
      ran in both after the same past of its round left the same result, they ran the same nodes with the same
      results, labelled the body alike and made the same record. */
  lemma RoundsAgree(plan: Plan, a: Rules, b: Rules, loop: Id, x: RoundEnd, y: RoundEnd)
    requires Sound(plan) && a.settings == b.settings && a.settings.Keys == plan.ids
    requires IsRound(plan, a, loop, x) && IsRound(plan, b, loop, y)
    requires FromThePast(LinkRelation(plan.net), x.ran, y.ran)
    ensures x.ran == y.ran
    ensures forall i :: 0 <= i < |x.after| && plan.net.links[i].source in Members(plan, Some(loop))
                        && !LeftToRounds(plan.net, PortsOf(x.ran), i)
                        ==> x.after[i] == y.after[i]
    ensures DistinctRefs(a.settings, x.ran) ==> x.record == y.record
  {
    hide Accounted;
    FrameEachLeaves(plan, Some(loop));
    ArmedAlike(plan, loop, x.before, x.after, y.before, y.after);
    PastDecides(plan.net, Members(plan, Some(loop)), x.after, x.ran, y.after, y.ran);
    RoundsAreIndependent(plan, loop, x.before, x.after, PortsOf(x.ran), y.before, y.after, PortsOf(y.ran));
    if DistinctRefs(a.settings, x.ran) { RecordsAgree(a.settings, x.ran, x.record, y.record); }
  }

  lemma ArmedAlike(plan: Plan, loop: Id, beforeA: States, a: States, beforeB: States, b: States)
    requires Sound(plan) && |beforeA| == |beforeB| == |a| == |b| == |plan.net.links|
    requires SameBoundary(plan.net, Members(plan, Some(loop)), Armed(plan, loop, beforeA), a)
    requires SameBoundary(plan.net, Members(plan, Some(loop)), Armed(plan, loop, beforeB), b)
    ensures SameBoundary(plan.net, Members(plan, Some(loop)), a, b)
  {
    ArmingForgetsThePast(plan, loop, beforeA, beforeB);
  }

  /** In particular when executions give the same results whatever their numbers. */
  lemma RoundsRepeat(plan: Plan, a: Rules, b: Rules, loop: Id, x: RoundEnd, y: RoundEnd)
    requires Sound(plan) && a.settings == b.settings && a.settings.Keys == plan.ids && SameConduct(a, b)
    requires IsRound(plan, a, loop, x) && IsRound(plan, b, loop, y)
    ensures x.ran == y.ran && (DistinctRefs(a.settings, x.ran) ==> x.record == y.record)
  {
    SameResults(a, b, x.blocks, x.ran, y.blocks, y.ran);
    RoundsAgree(plan, a, b, loop, x, y);
  }

  // ---------- bodies between rounds ----------

  /** What the last complete round of a container left: what was started in it, and what ran. */
  datatype Rest = Rest(blocks: seq<Block>, ran: map<Id, NodeResult>)

  /** The states with the entry edges of one body live, as every round of it begins. */
  function Entered(plan: Plan, loop: Id, st: States): (entered: States)
    requires |st| == |plan.net.links|
    ensures |entered| == |st|
  {
    seq(|st|, i requires 0 <= i < |st| => if IsEntry(plan, loop, i) then Live else st[i])
  }

  predicate IsEntry(plan: Plan, loop: Id, i: nat)
    requires i < |plan.net.links|
  {
    var l := plan.net.links[i];
    l.source == loop && l.sourcePort == Each && l.target in Body(plan, loop)
  }

  /** A body in which no round is open: its edges wait as at the beginning, or carry the labelling of its last
      complete round. */
  ghost predicate AtRest(plan: Plan, loop: Id, st: States, rest: map<Id, Rest>)
    requires |st| == |plan.net.links|
  {
    if loop in rest then Labelled(plan.net, Members(plan, Some(loop)), Entered(plan, loop, st), PortsOf(rest[loop].ran))
    else forall i :: 0 <= i < |st| && plan.net.links[i].source in Members(plan, Some(loop)) ==> st[i] == Pending
  }

  ghost predicate AllAtRest(plan: Plan, st: States, rest: map<Id, Rest>, open: seq<Id>)
    requires |st| == |plan.net.links|
  {
    forall loop :: loop in plan.net.loops && loop !in open ==> AtRest(plan, loop, st, rest)
  }

  ghost predicate AllStarted(log: seq<Event>, blocks: seq<Block>) {
    forall x :: x in Executions(blocks) ==> HasStarted(log, x.0, x.1)
  }

  ghost predicate HasStarted(log: seq<Event>, v: Id, n: nat) {
    exists e :: e in log && e.Started? && e.node == v && e.seqNo == n
  }

  /** Each was a round of this run, and its nodes left the results of their last attempts. */
  ghost predicate RestsRecorded(rules: Rules, log: seq<Event>, rest: map<Id, Rest>) {
    forall loop :: loop in rest ==>
      Accounted(rules, rest[loop].blocks, rest[loop].ran) && AllStarted(log, rest[loop].blocks)
  }

  lemma RestsStayRecorded(rules: Rules, a: seq<Event>, b: seq<Event>, rest: map<Id, Rest>)
    requires RestsRecorded(rules, a, rest) && a <= b
    ensures RestsRecorded(rules, b, rest)
  {
    forall loop, x | loop in rest && x in Executions(rest[loop].blocks) ensures HasStarted(b, x.0, x.1) {
      assert AllStarted(a, rest[loop].blocks);
      var e :| e in a && e.Started? && e.node == x.0 && e.seqNo == x.1;
      assert e in b;
    }
  }

  lemma RoundIsRecorded(rules: Rules, log: seq<Event>, rest: map<Id, Rest>, loop: Id, at: Place, r: Rest)
    requires RestsRecorded(rules, log, rest) && Accounted(rules, r.blocks, r.ran)
    requires StartsAt(log, at) == Executions(r.blocks)
    ensures RestsRecorded(rules, log, rest[loop := r])
  {
    forall x | x in Executions(r.blocks) ensures HasStarted(log, x.0, x.1) {
      StartsAreRecorded(log, at, x.0, x.1);
    }
  }

  /** Edges a labelling of a frame reads: those out of its nodes, and those that count for one of them. */
  predicate Matters(net: Net, direct: set<Id>, i: nat)
    requires i < |net.links|
  {
    net.links[i].source in direct || (net.links[i].target in direct && !Back(net, i))
  }

  lemma SameEdgesSameLabels(net: Net, direct: set<Id>, a: States, b: States, ran: map<Id, Option<set<Port>>>)
    requires |a| == |b| == |net.links| && Labelled(net, direct, a, ran)
    requires forall i :: 0 <= i < |a| && Matters(net, direct, i) ==> a[i] == b[i]
    ensures Labelled(net, direct, b, ran)
  {
    forall v | v in direct ensures Ready(net, b, v) && (v in ran <==> LiveIncoming(net, b, v)) {
      assert Ready(net, a, v);
      assert forall i :: 0 <= i < |a| && Counts(net, v, i) ==> Matters(net, direct, i) && a[i] == b[i];
      assert LiveIncoming(net, a, v) <==> LiveIncoming(net, b, v);
    }
  }

  /** Only the edges of a body's own nodes matter to it between rounds. */
  lemma StaysAtRest(plan: Plan, loop: Id, a: States, b: States, rest: map<Id, Rest>)
    requires Sound(plan) && |a| == |b| == |plan.net.links| && AtRest(plan, loop, a, rest)
    requires forall i :: 0 <= i < |a| && plan.net.links[i].source in Members(plan, Some(loop)) ==> a[i] == b[i]
    ensures AtRest(plan, loop, b, rest)
  {
    if loop in rest {
      var members := Members(plan, Some(loop));
      forall i | 0 <= i < |a| && Matters(plan.net, members, i)
        ensures Entered(plan, loop, a)[i] == Entered(plan, loop, b)[i]
      {
        if plan.net.links[i].target in members { SourcesOfFrame(plan, Some(loop), i); }
      }
      SameEdgesSameLabels(plan.net, members, Entered(plan, loop, a), Entered(plan, loop, b), PortsOf(rest[loop].ran));
    }
  }

  /** Deciding a node of the innermost open frame disturbs no body at rest. */
  lemma NodeLeavesRest(plan: Plan, a: States, b: States, rest: map<Id, Rest>, open: seq<Open>, u: Id)
    requires Sound(plan) && |a| == |b| == |plan.net.links| && AllAtRest(plan, a, rest, Nodes(open))
    requires u in Members(plan, Frame(open))
    requires forall i :: 0 <= i < |a| && plan.net.links[i].source != u ==> a[i] == b[i]
    ensures AllAtRest(plan, b, rest, Nodes(open))
  {
    forall loop | loop in plan.net.loops && loop !in Nodes(open) ensures AtRest(plan, loop, b, rest) {
      assert open != [] ==> Nodes(open)[|open| - 1] == open[|open| - 1].node;
      StaysAtRest(plan, loop, a, b, rest);
    }
  }

  /** Nor does arming a body, but for the body itself. */
  lemma ArmingLeavesRest(plan: Plan, a: States, rest: map<Id, Rest>, open: seq<Open>, u: Id)
    requires Sound(plan) && |a| == |plan.net.links| && AllAtRest(plan, a, rest, Nodes(open))
    requires u in Members(plan, Frame(open))
    ensures AllAtRest(plan, Armed(plan, u, a), rest, Nodes(open) + [u])
  {
    forall loop | loop in plan.net.loops && loop !in Nodes(open) + [u]
      ensures AtRest(plan, loop, Armed(plan, u, a), rest)
    {
      assert loop != u && loop !in Nodes(open);
      assert open != [] ==> Nodes(open)[|open| - 1] == open[|open| - 1].node;
      StaysAtRest(plan, loop, a, Armed(plan, u, a), rest);
    }
  }

  /** A round that ended leaves its body at rest. */
  lemma RoundComesToRest(plan: Plan, before: States, st: States, rest: map<Id, Rest>, open: seq<Id>, u: Id, r: Rest)
    requires Sound(plan) && |st| == |plan.net.links| && AllAtRest(plan, st, rest, open + [u])
    requires IsRoundWalk(plan, u, before, st, r.ran)
    ensures AllAtRest(plan, st, rest[u := r], open)
  {
    var members := Members(plan, Some(u));
    forall i | 0 <= i < |st| && Matters(plan.net, members, i) ensures Entered(plan, u, st)[i] == st[i]
    {
      if IsEntry(plan, u, i) { EntryIsLive(plan, u, before, st, r.ran, i); }
    }
    SameEdgesSameLabels(plan.net, members, st, Entered(plan, u, st), PortsOf(r.ran));
    forall loop | loop in plan.net.loops && loop !in open && loop != u ensures AtRest(plan, loop, st, rest[u := r]) {
      assert loop !in open + [u];
      assert AtRest(plan, loop, st, rest);
    }
  }

  lemma EntryIsLive(plan: Plan, u: Id, before: States, st: States, ran: map<Id, NodeResult>, i: nat)
    requires Sound(plan) && IsRoundWalk(plan, u, before, st, ran) && i < |st| && IsEntry(plan, u, i)
    requires Matters(plan.net, Members(plan, Some(u)), i)
    ensures st[i] == Live
  {
    LoopNotInOwnBody(plan, u);
    var v := plan.net.links[i].target;
    assert Counts(plan.net, v, i);
    assert Armed(plan, u, before)[i] == Live;
  }

  // ---------- two lists of the same edges ----------

  /** Equal edges of a frame carry equal labels, save the each edges a container leaves to its rounds. */
  ghost predicate EdgesAlike(netA: Net, netB: Net, direct: set<Id>, a: States, b: States, ran: map<Id, NodeResult>)
    requires |a| == |netA.links| && |b| == |netB.links|
  {
    forall i, j :: 0 <= i < |a| && 0 <= j < |b| && netA.links[i] == netB.links[j] && netA.links[i].source in direct
                   && !LeftToRounds(netA, PortsOf(ran), i)
                   ==> a[i] == b[j]
  }

  lemma LabellingsAgree(netA: Net, netB: Net, direct: set<Id>, a: States, ranA: map<Id, NodeResult>,
                        b: States, ranB: map<Id, NodeResult>)
    requires SameEdges(netA, netB) && |a| == |netA.links| && |b| == |netB.links|
    requires !Cyclic(LinkRelation(netA)) && EachLeavesWalk(netA, direct) && BoundaryAlike(netA, netB, direct, a, b)
    requires Labelled(netA, direct, a, PortsOf(ranA)) && Labelled(netB, direct, b, PortsOf(ranB))
    requires FromThePast(LinkRelation(netA), ranA, ranB)
    ensures ranA == ranB && EdgesAlike(netA, netB, direct, a, b, ranA)
  {
    ReorderedIsLabelled(netA, netB, direct, a, b, PortsOf(ranB));
    PastDecides(netA, direct, a, ranA, Reordered(netA, netB, b), ranB);
    EdgeOrderDoesNotMatter(netA, netB, direct, a, PortsOf(ranA), b, PortsOf(ranB));
  }

  /** Bodies at rest in two runs: both untouched, or both labelled alike if their last rounds' results came from the
      same past. */
  lemma BodiesAgree(planA: Plan, planB: Plan, loop: Id, a: States, restA: map<Id, Rest>,
                    b: States, restB: map<Id, Rest>)
    requires Sound(planA) && SameEdges(planA.net, planB.net) && planA.parent == planB.parent
    requires planA.reachable == planB.reachable && |a| == |planA.net.links| && |b| == |planB.net.links|
    requires AtRest(planA, loop, a, restA) && AtRest(planB, loop, b, restB) && (loop in restA <==> loop in restB)
    requires loop in restA ==> FromThePast(LinkRelation(planA.net), restA[loop].ran, restB[loop].ran)
    ensures loop in restA ==> restA[loop].ran == restB[loop].ran
    ensures EdgesAlike(planA.net, planB.net, Members(planA, Some(loop)), a, b,
                       if loop in restA then restA[loop].ran else map[])
  {
    var direct := Members(planA, Some(loop));
    assert Members(planB, Some(loop)) == direct;
    if loop in restA {
      FrameEachLeaves(planA, Some(loop));
      EntriesAlike(planA, planB, loop, a, b);
      LabellingsAgree(planA.net, planB.net, direct, Entered(planA, loop, a), restA[loop].ran,
                      Entered(planB, loop, b), restB[loop].ran);
      LoopNotInOwnBody(planA, loop);
      EnteredAlike(planA, planB, loop, a, b, restA[loop].ran);
    }
  }

  lemma EnteredAlike(planA: Plan, planB: Plan, loop: Id, a: States, b: States, ran: map<Id, NodeResult>)
    requires |a| == |planA.net.links| && |b| == |planB.net.links| && loop !in Body(planA, loop)
    requires EdgesAlike(planA.net, planB.net, Members(planA, Some(loop)),
                        Entered(planA, loop, a), Entered(planB, loop, b), ran)
    ensures EdgesAlike(planA.net, planB.net, Members(planA, Some(loop)), a, b, ran)
  {
    forall i, j | 0 <= i < |a| && 0 <= j < |b| && planA.net.links[i] == planB.net.links[j]
                  && planA.net.links[i].source in Members(planA, Some(loop))
                  && !LeftToRounds(planA.net, PortsOf(ran), i)
      ensures a[i] == b[j]
    {
      assert Entered(planA, loop, a)[i] == a[i] && Entered(planB, loop, b)[j] == b[j];
    }
  }

  lemma EntriesAlike(planA: Plan, planB: Plan, loop: Id, a: States, b: States)
    requires Sound(planA) && planA.parent == planB.parent && |a| == |planA.net.links| && |b| == |planB.net.links|
    ensures BoundaryAlike(planA.net, planB.net, Members(planA, Some(loop)),
                          Entered(planA, loop, a), Entered(planB, loop, b))
  {
    forall i, j | 0 <= i < |a| && 0 <= j < |b| && planA.net.links[i] == planB.net.links[j]
                  && planA.net.links[i].target in Members(planA, Some(loop))
                  && planA.net.links[i].source !in Members(planA, Some(loop))
      ensures Entered(planA, loop, a)[i] == Entered(planB, loop, b)[j]
    {
      SourcesOfFrame(planA, Some(loop), i);
      assert IsEntry(planA, loop, i) && IsEntry(planB, loop, j);
    }
  }
}
