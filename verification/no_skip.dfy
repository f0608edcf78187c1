/** Runs of channels reading change logs while writers commit, purges delete and other runs finish.
    Every cursor only covers what some completed run was handed, or what was purged. */
module NoSkip {
  import opened Digraph
  import opened ChannelGraph
  import opened CommitLog
  import opened Transactions
  import opened ChangePages
  import opened Checkpoints

  /** A node opening its range: it has read its cursor, then passed the mark check, then reads pages. */
  datatype Progress =
    | Checking(durable: Option<Position>)
    | Passed(durable: Option<Position>)
    | Reading(after: Option<Position>, got: seq<Position>)

  /** One run. `handed` remembers the numbers of the entries its nodes took over when they proposed. */
  datatype Job = Job(channel: Id, ignoring: bool, stopAt: bool, outcome: Option<Outcome>, bounds: map<Spot, nat>,
                     proposals: map<Spot, Position>, progress: map<Spot, Progress>, handed: set<(Spot, nat)>)

  datatype World = World(logs: map<Entity, Stream>, cursors: map<Key, Position>, jobs: map<nat, Job>)

  const BLANK := World(map[], map[], map[])

  datatype Act =
    | LogsMove(logs: map<Entity, Stream>)
    | StartJob(j: nat, channel: Id, ignoring: bool, stopAt: bool)
    | Resume(j: nat)
    | ReadCursor(j: nat, spot: Spot)
    | CheckMark(j: nat, spot: Spot)
    | Open(j: nat, spot: Spot)
    | Bind(j: nat, spot: Spot, bound: nat)
    | ReadPage(j: nat, spot: Spot, limit: nat, page: seq<Position>, more: bool)
    | GiveUp(j: nat, spot: Spot)
    | Propose(j: nat, spot: Spot)
    | Finish(j: nat, outcome: Outcome)
    | Settle(j: nat, spot: Spot)
    | DeleteChannel(channel: Id)

  function LogOf(w: World, e: Entity): Stream {
    if e in w.logs then w.logs[e] else EMPTY
  }

  function Durable(w: World, j: nat, spot: Spot): Option<Position>
    requires j in w.jobs
  {
    Get(w.cursors, Key(w.jobs[j].channel, spot))
  }

  predicate Running(w: World, j: nat) {
    j in w.jobs && w.jobs[j].outcome.None?
  }

  predicate At(w: World, j: nat, spot: Spot) {
    Running(w, j) && spot in w.jobs[j].progress
  }

  ghost predicate Can(w: World, a: Act) {
    match a
    case LogsMove(logs) => forall e: Entity :: Step(LogOf(w, e), LogOf(w.(logs := logs), e))
    case StartJob(j, _, _, _) => j !in w.jobs
    case Resume(j) => Running(w, j)
    case ReadCursor(j, spot) => Running(w, j) && !w.jobs[j].ignoring
    case CheckMark(j, spot) =>
      && At(w, j, spot) && w.jobs[j].progress[spot].Checking?
      && !Refused(w.jobs[j].progress[spot].durable, LogOf(w, spot.stream).mark)
    case Open(j, spot) =>
      Running(w, j) && (w.jobs[j].ignoring || (spot in w.jobs[j].progress && w.jobs[j].progress[spot].Passed?))
    case Bind(j, spot, bound) => Running(w, j) && spot !in w.jobs[j].bounds && IsBound(LogOf(w, spot.stream), bound)
    case ReadPage(j, spot, limit, page, more) =>
      && At(w, j, spot) && w.jobs[j].progress[spot].Reading? && spot in w.jobs[j].bounds
      && var reading := w.jobs[j].progress[spot];
         IsPage(LogOf(w, spot.stream), Reached(reading), w.jobs[j].bounds[spot], limit, page, more)
    case GiveUp(j, spot) => Running(w, j)
    case Propose(j, spot) => At(w, j, spot) && w.jobs[j].progress[spot].Reading? && w.jobs[j].progress[spot].got != []
    case Finish(j, _) => Running(w, j)
    case Settle(j, spot) => j in w.jobs && w.jobs[j].outcome == Some(Completed) && !w.jobs[j].stopAt
        && spot in w.jobs[j].proposals
    case DeleteChannel(_) => true
  }

  /** How far a reading has come. */
  function Reached(p: Progress): nat
    requires p.Reading?
  {
    End(After(p.after), p.got)
  }

  function Last(got: seq<Position>): Position
    requires got != []
  {
    got[|got| - 1]
  }

  /** What an act makes of the run it belongs to. */
  function Worked(w: World, a: Act): Job
    requires !a.LogsMove? && !a.StartJob? && !a.DeleteChannel? && a.j in w.jobs
    requires a.CheckMark? ==> a.spot in w.jobs[a.j].progress && w.jobs[a.j].progress[a.spot].Checking?
    requires a.ReadPage? || a.Propose? ==> a.spot in w.jobs[a.j].progress && w.jobs[a.j].progress[a.spot].Reading?
    requires a.Propose? ==> w.jobs[a.j].progress[a.spot].got != []
  {
    var job := w.jobs[a.j];
    match a
    case Resume(_) => job.(bounds := map[], progress := map[])
    case ReadCursor(j, spot) => job.(progress := job.progress[spot := Checking(Durable(w, j, spot))])
    case CheckMark(_, spot) => job.(progress := job.progress[spot := Passed(job.progress[spot].durable)])
    case Open(j, spot) =>
      var after := if job.ignoring then Get(job.proposals, spot)
          else MaxPosition(Durable(w, j, spot), Get(job.proposals, spot));
      job.(progress := job.progress[spot := Reading(after, [])])
    case Bind(_, spot, bound) => job.(bounds := job.bounds[spot := bound])
    case ReadPage(_, spot, _, page, _) =>
      job.(progress := job.progress[spot := Reading(job.progress[spot].after, job.progress[spot].got + page)])
    case GiveUp(_, spot) => job.(progress := job.progress - {spot})
    case Propose(_, spot) =>
      var got := job.progress[spot].got;
      job.(proposals := Raise(job.proposals, spot, Last(got)), progress := job.progress - {spot},
           handed := job.handed + set p | p in got :: (spot, p.commit))
    case Finish(_, outcome) => job.(outcome := Some(outcome), progress := map[])
    case Settle(_, _) => job
  }

  function Do(w: World, a: Act): World
    requires !a.LogsMove? && !a.StartJob? && !a.DeleteChannel? ==> a.j in w.jobs
    requires a.CheckMark? ==> a.spot in w.jobs[a.j].progress && w.jobs[a.j].progress[a.spot].Checking?
    requires a.ReadPage? || a.Propose? ==> a.spot in w.jobs[a.j].progress && w.jobs[a.j].progress[a.spot].Reading?
    requires a.Propose? ==> w.jobs[a.j].progress[a.spot].got != []
    requires a.Settle? ==> a.spot in w.jobs[a.j].proposals
  {
    match a
    case LogsMove(logs) => w.(logs := logs)
    case StartJob(j, channel, ignoring, stopAt) =>
      w.(jobs := w.jobs[j := Job(channel, ignoring, stopAt, None, map[], map[], map[], {})])
    case Settle(j, spot) => w.(cursors := Raise(w.cursors, Key(w.jobs[j].channel, spot), w.jobs[j].proposals[spot]))
    case DeleteChannel(channel) => w.(cursors := map k | k in w.cursors && k.channel != channel :: w.cursors[k])
    case _ => w.(jobs := w.jobs[a.j := Worked(w, a)])
  }

  ghost predicate Next(v: World, w: World) {
    exists a :: Can(v, a) && w == Do(v, a)
  }

  ghost predicate IsHistory(worlds: seq<World>) {
    && |worlds| > 0 && worlds[0] == BLANK
    && forall i :: 0 <= i < |worlds| - 1 ==> Next(worlds[i], worlds[i + 1])
  }

  // ---------- what is covered ----------

  /** The entry was purged, or a run of this channel that completed without stopping at a node was handed it. */
  ghost predicate Covered(w: World, channel: Id, spot: Spot, k: nat) {
    k in LogOf(w, spot.stream).deleted || exists j :: Delivered(w, j, channel, spot, k)
  }

  ghost predicate Delivered(w: World, j: nat, channel: Id, spot: Spot, k: nat) {
    && j in w.jobs && w.jobs[j].channel == channel && w.jobs[j].outcome == Some(Completed) && !w.jobs[j].stopAt
    && (spot, k) in w.jobs[j].handed
  }

  /** Covered once this run completes. */
  ghost predicate CoveredWith(w: World, j: nat, spot: Spot, k: nat)
    requires j in w.jobs
  {
    Covered(w, w.jobs[j].channel, spot, k) || (spot, k) in w.jobs[j].handed
  }

  ghost predicate CursorOk(w: World, key: Key) {
    key in w.cursors ==>
      && IsPlace(LogOf(w, key.spot.stream), w.cursors[key])
      && forall k :: 1 <= k <= w.cursors[key].commit ==> Covered(w, key.channel, key.spot, k)
  }

  /** A position a run may start after or propose: a real place with everything up to it covered. */
  ghost predicate StartOk(w: World, j: nat, spot: Spot, p: Option<Position>)
    requires j in w.jobs
  {
    p.Some? ==>
      && IsPlace(LogOf(w, spot.stream), p.value)
      && forall k :: 1 <= k <= p.value.commit ==> CoveredWith(w, j, spot, k)
  }

  ghost predicate ReadingOk(w: World, j: nat, spot: Spot) {
    j in w.jobs && spot in w.jobs[j].progress && w.jobs[j].progress[spot].Reading? ==>
      var p, log := w.jobs[j].progress[spot], LogOf(w, spot.stream);
      && StartOk(w, j, spot, p.after)
      && After(p.after) <= Reached(p) <= |log.born|
      && Scanned(log, After(p.after), Reached(p), p.got)
  }

  /** The cursor a check was made with is a real place. */
  ghost predicate CheckingOk(w: World, j: nat, spot: Spot) {
    j in w.jobs && spot in w.jobs[j].progress && !w.jobs[j].progress[spot].Reading?
        && w.jobs[j].progress[spot].durable.Some? ==>
      IsPlace(LogOf(w, spot.stream), w.jobs[j].progress[spot].durable.value)
  }

  ghost predicate JobOk(w: World, j: nat, spot: Spot) {
    && ReadingOk(w, j, spot) && CheckingOk(w, j, spot)
    && (j in w.jobs ==> StartOk(w, j, spot, Get(w.jobs[j].proposals, spot)))
  }

  ghost predicate Sound(w: World) {
    && (forall e: Entity :: Valid(LogOf(w, e)))
    && (forall key :: CursorOk(w, key))
    && (forall j: nat, spot :: JobOk(w, j, spot))
  }

  // ---------- covered stays covered ----------

  ghost predicate Kept(v: World, w: World, j: nat) {
    j in v.jobs ==>
      && j in w.jobs && w.jobs[j].channel == v.jobs[j].channel && w.jobs[j].stopAt == v.jobs[j].stopAt
      && v.jobs[j].handed <= w.jobs[j].handed
      && (v.jobs[j].outcome.Some? ==> w.jobs[j].outcome == v.jobs[j].outcome)
  }

  ghost predicate MovesOn(v: World, w: World) {
    (forall e: Entity :: Grows(LogOf(v, e), LogOf(w, e))) && (forall j: nat :: Kept(v, w, j))
  }

  lemma CoveredStays(v: World, w: World, channel: Id, spot: Spot, k: nat)
    requires MovesOn(v, w) && Covered(v, channel, spot, k)
    ensures Covered(w, channel, spot, k)
  {
    assert Grows(LogOf(v, spot.stream), LogOf(w, spot.stream));
    if k !in LogOf(v, spot.stream).deleted {
      var j :| Delivered(v, j, channel, spot, k);
      assert Kept(v, w, j);
      assert Delivered(w, j, channel, spot, k);
    }
  }

  lemma StartStays(v: World, w: World, j: nat, spot: Spot, p: Option<Position>)
    requires MovesOn(v, w) && j in v.jobs && StartOk(v, j, spot, p)
    ensures j in w.jobs && StartOk(w, j, spot, p)
  {
    assert Kept(v, w, j) && Grows(LogOf(v, spot.stream), LogOf(w, spot.stream));
    if p.Some? {
      forall k | 1 <= k <= p.value.commit ensures CoveredWith(w, j, spot, k) {
        assert CoveredWith(v, j, spot, k);
        if Covered(v, v.jobs[j].channel, spot, k) {
          CoveredStays(v, w, v.jobs[j].channel, spot, k);
        }
      }
    }
  }

  lemma CursorStays(v: World, w: World, key: Key)
    requires MovesOn(v, w) && CursorOk(v, key)
    requires key in w.cursors ==> key in v.cursors && w.cursors[key] == v.cursors[key]
    ensures CursorOk(w, key)
  {
    if key in w.cursors {
      assert Grows(LogOf(v, key.spot.stream), LogOf(w, key.spot.stream));
      forall k | 1 <= k <= w.cursors[key].commit ensures Covered(w, key.channel, key.spot, k) {
        CoveredStays(v, w, key.channel, key.spot, k);
      }
    }
  }

  lemma ReadingStays(v: World, w: World, j: nat, spot: Spot)
    requires MovesOn(v, w) && j in v.jobs && j in w.jobs && ReadingOk(v, j, spot)
    requires spot in w.jobs[j].progress && w.jobs[j].progress[spot].Reading?
      ==> spot in v.jobs[j].progress && w.jobs[j].progress[spot] == v.jobs[j].progress[spot]
    ensures ReadingOk(w, j, spot)
  {
    if spot in w.jobs[j].progress && w.jobs[j].progress[spot].Reading? {
      var p, log := w.jobs[j].progress[spot], LogOf(v, spot.stream);
      assert Grows(log, LogOf(w, spot.stream));
      StartStays(v, w, j, spot, p.after);
      ScannedStays(log, LogOf(w, spot.stream), After(p.after), Reached(p), p.got);
    }
  }

  lemma ActMovesOn(v: World, a: Act)
    requires Sound(v) && Can(v, a)
    ensures MovesOn(v, Do(v, a)) && forall e: Entity :: Valid(LogOf(Do(v, a), e))
  {
    hide Valid, CursorOk, JobOk;
    var w := Do(v, a);
    forall e: Entity ensures Grows(LogOf(v, e), LogOf(w, e)) && Valid(LogOf(w, e)) {
      if a.LogsMove? {
        assert LogOf(w, e) == LogOf(v.(logs := a.logs), e);
        StepKeepsValid(LogOf(v, e), LogOf(w, e));
      }
    }
  }

  /** Settling one proposal of a completed run. */
  lemma SettleKeepsCursors(v: World, j: nat, spot: Spot)
    requires Sound(v) && Can(v, Settle(j, spot))
    ensures CursorOk(Do(v, Settle(j, spot)), Key(v.jobs[j].channel, spot))
  {
    var w := Do(v, Settle(j, spot));
    var key, p := Key(v.jobs[j].channel, spot), v.jobs[j].proposals[spot];
    assert CursorOk(v, key) && JobOk(v, j, spot);
    ActMovesOn(v, Settle(j, spot));
    if w.cursors[key] == p {
      assert StartOk(v, j, spot, Some(p));
      forall k | 1 <= k <= p.commit ensures Covered(w, key.channel, spot, k) {
        assert CoveredWith(v, j, spot, k);
        if (spot, k) in v.jobs[j].handed {
          assert Delivered(v, j, key.channel, spot, k);
        }
        CoveredStays(v, w, key.channel, spot, k);
      }
    } else {
      CursorStays(v, w, key);
    }
  }

  lemma ActKeepsCursor(v: World, a: Act, key: Key)
    requires Sound(v) && Can(v, a)
    ensures CursorOk(Do(v, a), key)
  {
    ActMovesOn(v, a);
    assert CursorOk(v, key);
    if a.Settle? && key == Key(v.jobs[a.j].channel, a.spot) {
      SettleKeepsCursors(v, a.j, a.spot);
    } else {
      CursorStays(v, Do(v, a), key);
    }
  }

  /** Where a range may start. */
  lemma OpenStartsCovered(v: World, j: nat, spot: Spot)
    requires Sound(v) && j in v.jobs
    ensures StartOk(v, j, spot, Get(v.jobs[j].proposals, spot))
    ensures StartOk(v, j, spot, MaxPosition(Durable(v, j, spot), Get(v.jobs[j].proposals, spot)))
  {
    assert JobOk(v, j, spot) && CursorOk(v, Key(v.jobs[j].channel, spot));
    var durable := Durable(v, j, spot);
    if durable.Some? {
      forall k | 1 <= k <= durable.value.commit ensures CoveredWith(v, j, spot, k) {
        assert Covered(v, v.jobs[j].channel, spot, k);
      }
    }
  }

  lemma OpenKeepsReading(v: World, j: nat, spot: Spot)
    requires Sound(v) && Can(v, Open(j, spot))
    ensures ReadingOk(Do(v, Open(j, spot)), j, spot)
  {
    var w := Do(v, Open(j, spot));
    ActMovesOn(v, Open(j, spot));
    OpenStartsCovered(v, j, spot);
    StartStays(v, w, j, spot, w.jobs[j].progress[spot].after);
  }

  lemma ReadKeepsReading(v: World, a: Act)
    requires Sound(v) && Can(v, a) && a.ReadPage?
    ensures ReadingOk(Do(v, a), a.j, a.spot)
  {
    var w, log, p := Do(v, a), LogOf(v, a.spot.stream), v.jobs[a.j].progress[a.spot];
    ActMovesOn(v, a);
    assert JobOk(v, a.j, a.spot);
    NextPageScans(log, After(p.after), Reached(p), p.got, v.jobs[a.j].bounds[a.spot], a.limit, a.page, a.more);
    assert p.got + a.page != [] ==> Last(p.got + a.page) == if a.page == [] then Last(p.got) else Last(a.page);
    StartStays(v, w, a.j, a.spot, p.after);
  }

  /** Proposing hands over what was scanned, so everything up to the proposal is covered with this run. */
  lemma ProposeKeepsProposals(v: World, j: nat, spot: Spot)
    requires Sound(v) && Can(v, Propose(j, spot))
    ensures StartOk(Do(v, Propose(j, spot)), j, spot, Get(Do(v, Propose(j, spot)).jobs[j].proposals, spot))
  {
    var w, log, p := Do(v, Propose(j, spot)), LogOf(v, spot.stream), v.jobs[j].progress[spot];
    ActMovesOn(v, Propose(j, spot));
    assert JobOk(v, j, spot);
    var last := Last(p.got);
    if w.jobs[j].proposals[spot] == last {
      StartStays(v, w, j, spot, p.after);
      assert last in p.got;
      forall k | 1 <= k <= last.commit ensures CoveredWith(w, j, spot, k) {
        if k > After(p.after) && k !in log.deleted {
          var q := Position(k, log.born[k - 1]);
          assert q in p.got && (spot, q.commit) in w.jobs[j].handed;
        } else if k > After(p.after) {
          assert Covered(v, v.jobs[j].channel, spot, k);
          CoveredStays(v, w, v.jobs[j].channel, spot, k);
        }
      }
    } else {
      StartStays(v, w, j, spot, Get(v.jobs[j].proposals, spot));
    }
  }

  lemma ActKeepsProposals(v: World, a: Act, j: nat, spot: Spot)
    requires Sound(v) && Can(v, a) && j in v.jobs
    ensures StartOk(Do(v, a), j, spot, Get(Do(v, a).jobs[j].proposals, spot))
  {
    ActMovesOn(v, a);
    assert JobOk(v, j, spot);
    if a.Propose? && a.j == j && a.spot == spot {
      ProposeKeepsProposals(v, j, spot);
    } else {
      StartStays(v, Do(v, a), j, spot, Get(v.jobs[j].proposals, spot));
    }
  }

  lemma ActKeepsReading(v: World, a: Act, j: nat, spot: Spot)
    requires Sound(v) && Can(v, a) && j in v.jobs
    ensures ReadingOk(Do(v, a), j, spot)
  {
    ActMovesOn(v, a);
    assert JobOk(v, j, spot);
    hide Valid, Grows, MovesOn, StartOk, CursorOk, CheckingOk;
    if a.Open? && a.j == j && a.spot == spot {
      OpenKeepsReading(v, j, spot);
    } else if a.ReadPage? && a.j == j && a.spot == spot {
      ReadKeepsReading(v, a);
    } else {
      ReadingStays(v, Do(v, a), j, spot);
    }
  }

  /** The cursor a run of v may have read for a check. */
  ghost predicate ReadIn(v: World, j: nat, spot: Spot, p: Progress)
    requires j in v.jobs
  {
    !p.Reading? ==>
      || p.durable == Durable(v, j, spot)
      || (spot in v.jobs[j].progress && !v.jobs[j].progress[spot].Reading?
          && v.jobs[j].progress[spot].durable == p.durable)
  }

  lemma ActReadsCursors(v: World, a: Act, j: nat, spot: Spot)
    requires Can(v, a) && j in v.jobs
    ensures j in Do(v, a).jobs
    ensures spot in Do(v, a).jobs[j].progress ==> ReadIn(v, j, spot, Do(v, a).jobs[j].progress[spot])
  {
  }

  lemma ActKeepsChecking(v: World, a: Act, j: nat, spot: Spot)
    requires Sound(v) && Can(v, a) && j in v.jobs
    ensures CheckingOk(Do(v, a), j, spot)
  {
    var w := Do(v, a);
    ActMovesOn(v, a);
    ActReadsCursors(v, a, j, spot);
    CheckingStays(v, w, j, spot);
  }

  lemma CheckingStays(v: World, w: World, j: nat, spot: Spot)
    requires Sound(v) && MovesOn(v, w) && j in v.jobs && j in w.jobs
    requires spot in w.jobs[j].progress ==> ReadIn(v, j, spot, w.jobs[j].progress[spot])
    ensures CheckingOk(w, j, spot)
  {
    assert JobOk(v, j, spot) && CursorOk(v, Key(v.jobs[j].channel, spot));
    assert Grows(LogOf(v, spot.stream), LogOf(w, spot.stream));
  }

  lemma ActKeepsJob(v: World, a: Act, j: nat, spot: Spot)
    requires Sound(v) && Can(v, a)
    ensures JobOk(Do(v, a), j, spot)
  {
    if j in v.jobs {
      ActKeepsProposals(v, a, j, spot);
      ActKeepsReading(v, a, j, spot);
      ActKeepsChecking(v, a, j, spot);
    }
  }

  lemma NextKeepsSound(v: World, w: World)
    requires Sound(v) && Next(v, w)
    ensures Sound(w) && MovesOn(v, w)
  {
    var a :| Can(v, a) && w == Do(v, a);
    ActMovesOn(v, a);
    forall key ensures CursorOk(w, key) {
      ActKeepsCursor(v, a, key);
    }
    forall j: nat, spot ensures JobOk(w, j, spot) {
      ActKeepsJob(v, a, j, spot);
    }
  }

  lemma {:induction false} HistoryIsSound(worlds: seq<World>, i: nat)
    requires IsHistory(worlds) && i < |worlds|
    ensures Sound(worlds[i])
  {
    if i > 0 {
      HistoryIsSound(worlds, i - 1);
      NextKeepsSound(worlds[i - 1], worlds[i]);
    }
  }

  // ---------- the promises ----------

  /** In every interleaving, every entry at or below a stored cursor was handed to a run of that channel
      that completed, or was purged. */
  lemma NothingIsSkipped(worlds: seq<World>, key: Key, k: nat)
    requires IsHistory(worlds) && key in worlds[|worlds| - 1].cursors
    requires 1 <= k <= worlds[|worlds| - 1].cursors[key].commit
    ensures Covered(worlds[|worlds| - 1], key.channel, key.spot, k)
  {
    HistoryIsSound(worlds, |worlds| - 1);
    assert CursorOk(worlds[|worlds| - 1], key);
  }

  /** A cursor changes only by taking a proposal of a run of its channel that completed and did not stop at
      a node; it is dropped only with its channel. */
  lemma OnlyCompletedRunsMoveCursors(v: World, w: World, key: Key) returns (j: nat)
    requires Next(v, w) && Get(v.cursors, key) != Get(w.cursors, key)
    ensures key !in w.cursors ==> forall k :: k in w.cursors ==> k.channel != key.channel
    ensures key in w.cursors ==>
      && j in v.jobs && v.jobs[j].channel == key.channel && v.jobs[j].outcome == Some(Completed) && !v.jobs[j].stopAt
      && key.spot in v.jobs[j].proposals && w.cursors[key] == v.jobs[j].proposals[key.spot]
  {
    var a :| Can(v, a) && w == Do(v, a);
    j := if a.Settle? then a.j else 0;
  }

  /** As long as its channel is not deleted, a cursor never goes back. */
  lemma {:induction false} CursorsOnlyMoveUp(worlds: seq<World>, i: nat, j: nat, key: Key)
    requires IsHistory(worlds) && i <= j < |worlds|
    requires forall m :: i <= m <= j ==> key in worlds[m].cursors
    ensures !Before(worlds[j].cursors[key], worlds[i].cursors[key])
  {
    if i < j {
      CursorsOnlyMoveUp(worlds, i, j - 1, key);
      assert Next(worlds[j - 1], worlds[j]);
      NextMovesUp(worlds[j - 1], worlds[j], key);
    }
  }

  lemma NextMovesUp(v: World, w: World, key: Key)
    requires Next(v, w) && key in v.cursors && key in w.cursors
    ensures !Before(w.cursors[key], v.cursors[key])
  {
    var a :| Can(v, a) && w == Do(v, a);
  }

  /** The mark check lets a range open exactly when nothing after the cursor it read has been deleted. */
  lemma OpenRefusedIffEntriesWereLost(worlds: seq<World>, j: nat, spot: Spot)
    requires IsHistory(worlds) && At(worlds[|worlds| - 1], j, spot)
    requires worlds[|worlds| - 1].jobs[j].progress[spot].Checking?
    requires worlds[|worlds| - 1].jobs[j].progress[spot].durable.Some?
    ensures var w := worlds[|worlds| - 1];
      var cursor := w.jobs[j].progress[spot].durable.value;
      Can(w, CheckMark(j, spot)) <==> forall k :: k in LogOf(w, spot.stream).deleted ==> k <= cursor.commit
  {
    var w := worlds[|worlds| - 1];
    HistoryIsSound(worlds, |worlds| - 1);
    assert JobOk(w, j, spot);
    RefusedIffDeletedAfterCursor(LogOf(w, spot.stream), w.jobs[j].progress[spot].durable.value);
  }

  /** Whatever the transactions do to the logs is a move the runs allow for. */
  lemma DatabaseMovesLogs(d: Db, f: Db, w: World)
    requires LocksInOrder(d) && DbStep(d, f) && w.logs == d.logs
    ensures Next(w, w.(logs := f.logs))
  {
    forall e: Entity ensures Step(LogOf(w, e), LogOf(w.(logs := f.logs), e)) {
      StepOfEachLog(d, f, e);
    }
    assert Can(w, LogsMove(f.logs));
    assert Do(w, LogsMove(f.logs)) == w.(logs := f.logs);
  }
}
