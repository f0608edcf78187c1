/** The record of one run: executions start and finish, containers record rounds.
    Replaying a record succeeds only if executions nest, every start carries the innermost open round,
    sequence numbers are fresh and rounds are numbered from zero without repeats. */
module Journal {
  import opened Digraph
  import opened ChannelGraph

  datatype Event =
    | Started(seqNo: nat, node: Id, context: Option<(nat, nat)>)
    | Finished(seqNo: nat, node: Id)
    | RoundBegan(seqNo: nat, index: nat)

  /** An execution that has started and not finished, with the rounds it has recorded. */
  datatype Open = Open(seqNo: nat, node: Id, rounds: nat)

  datatype Replayed = Replayed(started: nat, open: seq<Open>)

  /** The container execution and round a start must name: the innermost open one. */
  function Context(open: seq<Open>): Option<(nat, nat)> {
    if open == [] || open[|open| - 1].rounds == 0 then None
    else Some((open[|open| - 1].seqNo, open[|open| - 1].rounds - 1))
  }

  /** Only a container with an open round may have an execution inside it. */
  predicate MayStart(open: seq<Open>) {
    open == [] || open[|open| - 1].rounds > 0
  }

  function Nodes(open: seq<Open>): (nodes: seq<Id>) {
    seq(|open|, k requires 0 <= k < |open| => open[k].node)
  }

  /** The container whose body is being walked, or the outermost frame. */
  function Frame(open: seq<Open>): Option<Id> {
    if open == [] then None else Some(open[|open| - 1].node)
  }

  function Step(r: Replayed, e: Event): Option<Replayed> {
    match e
    case Started(s, n, context) =>
      if s == r.started + 1 && MayStart(r.open) && context == Context(r.open)
      then Some(Replayed(s, r.open + [Open(s, n, 0)])) else None
    case Finished(s, n) =>
      if r.open != [] && r.open[|r.open| - 1].seqNo == s && r.open[|r.open| - 1].node == n
      then Some(Replayed(r.started, r.open[..|r.open| - 1])) else None
    case RoundBegan(s, i) =>
      if r.open != [] && r.open[|r.open| - 1].seqNo == s && r.open[|r.open| - 1].rounds == i
      then Some(Replayed(r.started, r.open[..|r.open| - 1] + [r.open[|r.open| - 1].(rounds := i + 1)])) else None
  }

  function Replay(log: seq<Event>): Option<Replayed> {
    if log == [] then Some(Replayed(0, []))
    else
      var before := Replay(log[..|log| - 1]);
      if before.None? then None else Step(before.value, log[|log| - 1])
  }

  lemma ReplayOne(log: seq<Event>, e: Event)
    requires Replay(log).Some?
    ensures Replay(log + [e]) == Step(Replay(log).value, e)
  {
    assert (log + [e])[..|log|] == log;
  }

  /** Only nodes of s were ever started. */
  ghost predicate StartsWithin(log: seq<Event>, s: set<Id>) {
    forall e :: e in log && e.Started? ==> e.node in s
  }

  function CountStarts(log: seq<Event>, s: nat): nat {
    if log == [] then 0
    else CountStarts(log[..|log| - 1], s) + if log[|log| - 1].Started? && log[|log| - 1].seqNo == s then 1 else 0
  }

  function CountFinishes(log: seq<Event>, s: nat): nat {
    if log == [] then 0
    else CountFinishes(log[..|log| - 1], s) + if log[|log| - 1].Finished? && log[|log| - 1].seqNo == s then 1 else 0
  }

  function CountRounds(log: seq<Event>, s: nat, i: nat): nat {
    if log == [] then 0
    else CountRounds(log[..|log| - 1], s, i) + if log[|log| - 1] == RoundBegan(s, i) then 1 else 0
  }

  ghost predicate IsOpen(open: seq<Open>, s: nat) {
    exists k :: 0 <= k < |open| && open[k].seqNo == s
  }

  /** Open executions carry increasing numbers no greater than the number of starts. */
  lemma {:induction false} OpenIsIncreasing(log: seq<Event>)
    requires Replay(log).Some?
    ensures var r := Replay(log).value;
      && (forall i, j :: 0 <= i < j < |r.open| ==> r.open[i].seqNo < r.open[j].seqNo)
      && (forall i :: 0 <= i < |r.open| ==> 0 < r.open[i].seqNo <= r.started)
  {
    if log != [] {
      OpenIsIncreasing(log[..|log| - 1]);
    }
  }

  /** Where an execution starts: in the outermost frame, or in one round of a container execution. */
  type Place = Option<(nat, nat)>

  /** The executions started at one place, in order: each with its node and its number. */
  function StartsAt(log: seq<Event>, at: Place): seq<(Id, nat)> {
    if log == [] then []
    else
      var before := StartsAt(log[..|log| - 1], at);
      var e := log[|log| - 1];
      if e.Started? && e.context == at then before + [(e.node, e.seqNo)] else before
  }

  /** The consecutive attempts of one node. */
  datatype Block = Block(node: Id, numbers: seq<nat>)

  function Listing(b: Block): (starts: seq<(Id, nat)>) {
    seq(|b.numbers|, i requires 0 <= i < |b.numbers| => (b.node, b.numbers[i]))
  }

  function Executions(blocks: seq<Block>): seq<(Id, nat)> {
    if blocks == [] then [] else Executions(blocks[..|blocks| - 1]) + Listing(blocks[|blocks| - 1])
  }

  lemma OneMoreBlock(blocks: seq<Block>, b: Block)
    ensures Executions(blocks + [b]) == Executions(blocks) + Listing(b)
  {
    assert (blocks + [b])[..|blocks|] == blocks;
  }

  lemma NoBlocks()
    ensures Executions([]) == []
  {}

  /** The outermost frame, or a round of an execution numbered at most n. */
  predicate Earlier(at: Place, n: nat) {
    at.None? || at.value.0 <= n
  }

  /** The record grew by exactly these starts at one place, and by none at any other earlier place. */
  ghost predicate Grew(a: seq<Event>, b: seq<Event>, n: nat, at: Place, starts: seq<(Id, nat)>) {
    && a <= b && StartsAt(b, at) == StartsAt(a, at) + starts
    && forall c :: c != at && Earlier(c, n) ==> StartsAt(b, c) == StartsAt(a, c)
  }

  lemma StartsAtOne(log: seq<Event>, e: Event, at: Place)
    ensures StartsAt(log + [e], at)
         == StartsAt(log, at) + if e.Started? && e.context == at then [(e.node, e.seqNo)] else []
  {
    assert (log + [e])[..|log|] == log;
  }

  lemma GrewByOne(log: seq<Event>, e: Event, n: nat, at: Place)
    requires e.Started? ==> e.context == at
    ensures Grew(log, log + [e], n, at, if e.Started? then [(e.node, e.seqNo)] else [])
  {
    StartsAtOne(log, e, at);
    forall c | c != at && Earlier(c, n) ensures StartsAt(log + [e], c) == StartsAt(log, c) {
      StartsAtOne(log, e, c);
    }
  }

  lemma GrewTwice(a: seq<Event>, b: seq<Event>, c: seq<Event>, n: nat, m: nat, at: Place,
                  x: seq<(Id, nat)>, y: seq<(Id, nat)>)
    requires n <= m && Grew(a, b, n, at, x) && Grew(b, c, m, at, y)
    ensures Grew(a, c, n, at, x + y)
  {}

  /** Every start listed at a place is in the record. */
  lemma {:induction false} StartsAreRecorded(log: seq<Event>, at: Place, v: Id, n: nat)
    requires (v, n) in StartsAt(log, at)
    ensures Started(n, v, at) in log
  {
    var e := log[|log| - 1];
    assert e in log;
    if e != Started(n, v, at) {
      StartsAreRecorded(log[..|log| - 1], at, v, n);
      assert Started(n, v, at) in log[..|log| - 1];
    }
  }

  /** Nothing has started yet in a round that has not begun. */
  ghost predicate NotBegun(r: Replayed, s: nat, i: nat) {
    s > r.started || exists k :: 0 <= k < |r.open| && r.open[k].seqNo == s && r.open[k].rounds <= i
  }

  /** A round that has not begun after an event had not begun before it, and the event starts nothing in it. */
  lemma NotBegunBefore(p: Replayed, e: Event, s: nat, i: nat)
    requires Step(p, e).Some? && NotBegun(Step(p, e).value, s, i)
    requires forall a, b :: 0 <= a < b < |p.open| ==> p.open[a].seqNo < p.open[b].seqNo
    requires forall a :: 0 <= a < |p.open| ==> p.open[a].seqNo <= p.started
    ensures NotBegun(p, s, i) && !(e.Started? && e.context == Some((s, i)))
  {
    var r := Step(p, e).value;
    if s <= r.started {
      var k :| 0 <= k < |r.open| && r.open[k].seqNo == s && r.open[k].rounds <= i;
      if k < |p.open| {
        assert p.open[k].seqNo == s && p.open[k].rounds <= i;
      } else {
        assert s > p.started;
      }
    }
  }

  lemma {:induction false} UnbegunRoundIsEmpty(log: seq<Event>, s: nat, i: nat)
    requires Replay(log).Some? && NotBegun(Replay(log).value, s, i)
    ensures StartsAt(log, Some((s, i))) == []
  {
    if log != [] {
      var before := log[..|log| - 1];
      OpenIsIncreasing(before);
      NotBegunBefore(Replay(before).value, log[|log| - 1], s, i);
      hide NotBegun, Step;
      UnbegunRoundIsEmpty(before, s, i);
    }
  }

  /** What one event does to the executions that are open. */
  lemma OpenAfter(p: Replayed, e: Event, s: nat)
    requires Step(p, e).Some?
    requires forall i, j :: 0 <= i < j < |p.open| ==> p.open[i].seqNo < p.open[j].seqNo
    ensures var r := Step(p, e).value;
      match e
      case Started(t, _, _) => IsOpen(r.open, s) <==> s == t || IsOpen(p.open, s)
      case Finished(t, _) => IsOpen(p.open, t) && (IsOpen(r.open, s) <==> s != t && IsOpen(p.open, s))
      case RoundBegan(_, _) => IsOpen(r.open, s) <==> IsOpen(p.open, s)
  {
    var r := Step(p, e).value;
    match e
    case Started(t, _, _) =>
      assert r.open[|p.open|].seqNo == t;
      assert forall k :: 0 <= k < |p.open| ==> r.open[k] == p.open[k];
    case Finished(t, _) =>
      assert p.open[|r.open|].seqNo == t;
      assert forall k :: 0 <= k < |r.open| ==> r.open[k] == p.open[k];
    case RoundBegan(_, _) =>
      assert |r.open| == |p.open| && forall k :: 0 <= k < |r.open| ==> r.open[k].seqNo == p.open[k].seqNo;
  }

  /** On every replayable record, each number up to the last was started once, and it has finished
      exactly when it is no longer open. */
  lemma {:induction false} StartsMatchFinishes(log: seq<Event>, s: nat)
    requires Replay(log).Some?
    ensures var r := Replay(log).value;
      && CountStarts(log, s) == (if 0 < s <= r.started then 1 else 0)
      && CountFinishes(log, s) == (if 0 < s <= r.started && !IsOpen(r.open, s) then 1 else 0)
      && (IsOpen(r.open, s) ==> 0 < s <= r.started)
  {
    if log == [] {
      assert !IsOpen([], s);
    } else {
      var before := log[..|log| - 1];
      StartsMatchFinishes(before, s);
      OpenIsIncreasing(before);
      OpenIsIncreasing(log);
      OpenAfter(Replay(before).value, log[|log| - 1], s);
      hide IsOpen, Context, MayStart;
    }
  }

  /** What a record says about round i of execution s: nothing for a future execution, exactly the rounds
      below its counter for an open one, and never more than one entry. */
  ghost predicate RoundsFit(r: Replayed, s: nat, i: nat, count: nat) {
    && count <= 1
    && (s > r.started ==> count == 0)
    && (forall k :: 0 <= k < |r.open| && r.open[k].seqNo == s ==> count == if i < r.open[k].rounds then 1 else 0)
  }

  lemma RoundsFitStep(p: Replayed, e: Event, s: nat, i: nat, count: nat)
    requires Step(p, e).Some? && RoundsFit(p, s, i, count)
    requires forall a, b :: 0 <= a < b < |p.open| ==> p.open[a].seqNo < p.open[b].seqNo
    requires forall a :: 0 <= a < |p.open| ==> p.open[a].seqNo <= p.started
    ensures RoundsFit(Step(p, e).value, s, i, if e == RoundBegan(s, i) then count + 1 else count)
  {
    var r := Step(p, e).value;
    var last := |p.open| - 1;
    if e.RoundBegan? {
      assert forall k :: 0 <= k < last ==> r.open[k] == p.open[k];
      assert e.seqNo == s ==> p.open[last].seqNo == s;
    }
  }

  /** No (container execution, round) pair is recorded twice. */
  lemma {:induction false} RoundsRecordedOnce(log: seq<Event>, s: nat, i: nat)
    requires Replay(log).Some?
    ensures CountRounds(log, s, i) <= 1 && RoundsFit(Replay(log).value, s, i, CountRounds(log, s, i))
  {
    if log != [] {
      var before := log[..|log| - 1];
      RoundsRecordedOnce(before, s, i);
      OpenIsIncreasing(before);
      RoundsFitStep(Replay(before).value, log[|log| - 1], s, i, CountRounds(before, s, i));
    }
  }

  /** A record that replays with nothing open: every start is matched by exactly one finish. */
  lemma ClosedRecordIsMatched(log: seq<Event>, s: nat)
    requires Replay(log).Some? && Replay(log).value.open == []
    ensures CountStarts(log, s) == CountFinishes(log, s) <= 1
  {
    StartsMatchFinishes(log, s);
  }
}
