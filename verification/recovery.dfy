/** What a failed run brings about: retries pinned to its version, then perhaps one error-workflow run, a count
    asked of the channel's failure streak, and dropping jobs whose settings say not to keep them. What becomes of the
    counts asked for is in module Streaks. */
module Recovery {
  import opened Digraph
  import opened ChannelGraph
  import Streaks

  datatype Kind = Ordinary | RetryRun | ErrorWorkflow

  datatype Status = Active | Succeeded | Failed | Cancelled

  /** `run_retry_limit` may hold anything; only an integer counts. */
  datatype Raw = Number(i: int) | NotANumber

  datatype Settings = Settings(retryLimit: Raw, errorChannel: Option<Id>, keepTest: bool, keepSucceeded: bool,
      keepFailed: bool)

  /** A job and its run. `test` is an on-demand run that is not pinned; `root` remembers the run it goes back to. */
  datatype Job = Job(kind: Kind, test: bool, retryOf: Option<Id>, channel: Id, published: bool, version: Option<nat>,
                     settings: Settings, status: Status, root: Id)

  const MOST_RETRIES := 10

  function Limit(settings: Settings): (n: nat)
    ensures n <= MOST_RETRIES
  {
    match settings.retryLimit
    case NotANumber => 0
    case Number(i) => if i < 0 then 0 else if i > MOST_RETRIES then MOST_RETRIES else i
  }

  predicate Discards(job: Job) {
    if job.status.Cancelled? then false
    else if job.test then !job.settings.keepTest
    else if job.status.Succeeded? then !job.settings.keepSucceeded
    else if job.status.Failed? then !job.settings.keepFailed
    else false
  }

  /** How many retries lie behind a job, as far as the rows can be followed. */
  function Behind(jobs: map<Id, Job>, job: Job, seen: set<Id>): nat
    decreases jobs.Keys - seen
  {
    if job.retryOf.None? || job.retryOf.value in seen then 0
    else if job.retryOf.value !in jobs then 1
    else 1 + Behind(jobs, jobs[job.retryOf.value], seen + {job.retryOf.value})
  }

  method Ancestors(jobs: map<Id, Job>, job: Job) returns (count: nat)
    ensures count == Behind(jobs, job, {})
  {
    count := 0;
    var seen: set<Id> := {};
    var current := job;
    while true
      invariant count + Behind(jobs, current, seen) == Behind(jobs, job, {})
      decreases jobs.Keys - seen
    {
      if current.retryOf.None? || current.retryOf.value in seen {
        return;
      }
      var parent := current.retryOf.value;
      if parent !in jobs {
        return count + 1;
      }
      seen := seen + {parent};
      count := count + 1;
      current := jobs[parent];
    }
  }

  /** The failed jobs of a closed retry chain that are not to be kept, from the last one back. */
  function Doomed(jobs: map<Id, Job>, id: Id, seen: set<Id>): (d: set<Id>)
    requires id in jobs
    ensures d <= jobs.Keys
    decreases jobs.Keys - seen
  {
    if id in seen then {}
    else
      var job := jobs[id];
      var here := if job.status.Failed? && Discards(job) then {id} else {};
      if job.retryOf.None? || job.retryOf.value !in jobs || !jobs[job.retryOf.value].status.Failed? then here
      else here + Doomed(jobs, job.retryOf.value, seen + {id})
  }

  method ReleaseFailedChain(jobs: map<Id, Job>, id: Id) returns (left: map<Id, Job>)
    requires id in jobs
    ensures left == jobs - Doomed(jobs, id, {})
  {
    var doomed: set<Id>, seen: set<Id> := {}, {};
    var current := id;
    while current !in seen
      invariant current in jobs && doomed + Doomed(jobs, current, seen) == Doomed(jobs, id, {})
      decreases jobs.Keys - seen
    {
      var job := jobs[current];
      if job.status.Failed? && Discards(job) {
        doomed := doomed + {current};
      }
      if job.retryOf.None? || job.retryOf.value !in jobs || !jobs[job.retryOf.value].status.Failed? {
        break;
      }
      seen := seen + {current};
      current := job.retryOf.value;
    }
    left := jobs - doomed;
  }

  // ---------- the cascade ----------

  /** What became of one run and everything minted because of it: its first job as it started, its chain of
      jobs, first to last, the error-workflow jobs minted, and how often its failure asked to be counted. */
  datatype Episode = Episode(first: Job, chain: seq<Id>, errors: nat, bumps: nat, closed: bool)

  /** A settlement's turn to write a channel's streak. */
  datatype Ask = Ask(channel: Id, kind: Streaks.Kind)

  datatype World = World(jobs: map<Id, Job>, asks: seq<Ask>, episodes: map<Id, Episode>)

  /** The settings of a published version never change. */
  type Versions = (Id, nat) -> Settings

  /** How the attempts to mint went: the retry's and the error run's ids when they were queued, and what the
      error run is; no error run when its target is unusable or queueing it failed. */
  datatype Followups = Followups(retry: Option<Id>, error: Option<(Id, Job)>)

  datatype Event =
    | Start(id: Id, job: Job)
    | Succeed(id: Id)
    | Cancel(id: Id)
    | Fail(id: Id, f: Followups)

  predicate Fresh(w: World, id: Id) {
    id !in w.episodes && id !in w.jobs && forall r :: r in w.episodes ==> id !in w.episodes[r].chain
  }

  /** A new run that is no follow-up; a published one runs the settings of its version. */
  predicate NewRun(id: Id, job: Job, versions: Versions) {
    && job.status.Active? && job.retryOf.None? && job.root == id && !job.kind.RetryRun?
    && (job.published && job.version.Some? ==> job.settings == versions(job.channel, job.version.value))
  }

  predicate Retries(w: World, id: Id)
    requires id in w.jobs
  {
    var job := w.jobs[id];
    job.kind != ErrorWorkflow && job.published && job.version.Some? && Behind(w.jobs, job, {}) < Limit(job.settings)
  }

  ghost predicate Enabled(w: World, e: Event, versions: Versions) {
    match e
    case Start(id, job) => Fresh(w, id) && NewRun(id, job, versions) && job.kind.Ordinary?
    case Succeed(id) => id in w.jobs && w.jobs[id].status.Active?
    case Cancel(id) => id in w.jobs && w.jobs[id].status.Active?
    case Fail(id, f) =>
      && id in w.jobs && w.jobs[id].status.Active?
      && (f.retry.Some? ==> Fresh(w, f.retry.value))
      && (f.error.Some? ==> Fresh(w, f.error.value.0) && f.error.value.1.kind.ErrorWorkflow?)
      && (f.error.Some? ==> NewRun(f.error.value.0, f.error.value.1, versions))
  }

  function Bumped(asks: seq<Ask>, job: Job): seq<Ask> {
    if job.published then asks + [Ask(job.channel, Streaks.Bump)] else asks
  }

  function Cleared(asks: seq<Ask>, job: Job): seq<Ask> {
    if job.published then asks + [Ask(job.channel, Streaks.Clear)] else asks
  }

  /** The retry: the same channel and version, published, pointing back at the failed job. */
  function RetryOf(job: Job, id: Id, versions: Versions): Job
    requires job.version.Some?
  {
    Job(RetryRun, false, Some(id), job.channel, true, job.version, versions(job.channel, job.version.value), Active,
        job.root)
  }

  function Without(jobs: map<Id, Job>, id: Id): map<Id, Job>
    requires id in jobs
  {
    if Discards(jobs[id]) then jobs - {id} else jobs
  }

  /** Settling a failed job; `w` already has it failed. */
  function Settled(w: World, id: Id, f: Followups, versions: Versions): World
    requires id in w.jobs && w.jobs[id].root in w.episodes
  {
    var job := w.jobs[id];
    var episode := w.episodes[job.root];
    var bump := if job.published then 1 else 0;
    if job.kind.ErrorWorkflow? then
      World(Without(w.jobs, id), Bumped(w.asks, job),
            w.episodes[job.root := episode.(bumps := episode.bumps + bump, closed := true)])
    else if Retries(w, id) then
      match f.retry
      case Some(next) =>
        w.(jobs := w.jobs[next := RetryOf(job, id, versions)],
           episodes := w.episodes[job.root := episode.(chain := episode.chain + [next])])
      case None => w.(episodes := w.episodes[job.root := episode.(closed := true)])
    else
      var closed := episode.(bumps := episode.bumps + bump, closed := true);
      var error := if job.settings.errorChannel.Some? then f.error else None;
      var minted := Minted(w.jobs, error);
      World(minted - Doomed(minted, id, {}), Bumped(w.asks, job),
            match error
            case Some(e) =>
              w.episodes[job.root := closed.(errors := episode.errors + 1)][e.0 := Episode(e.1, [e.0], 0, 0, false)]
            case None => w.episodes[job.root := closed])
  }

  function Minted(jobs: map<Id, Job>, error: Option<(Id, Job)>): map<Id, Job> {
    if error.Some? then jobs[error.value.0 := error.value.1] else jobs
  }

  function Ended(w: World, id: Id, status: Status): World
    requires id in w.jobs
  {
    w.(jobs := w.jobs[id := w.jobs[id].(status := status)])
  }

  function Closed(w: World, root: Id): map<Id, Episode> {
    if root in w.episodes then w.episodes[root := w.episodes[root].(closed := true)] else w.episodes
  }

  function Apply(w: World, e: Event, versions: Versions): World
    requires !e.Start? ==> e.id in w.jobs && w.jobs[e.id].root in w.episodes
  {
    match e
    case Start(id, job) => w.(jobs := w.jobs[id := job], episodes := w.episodes[id := Episode(job, [id], 0, 0, false)])
    case Succeed(id) =>
      var job := w.jobs[id];
      World(Without(Ended(w, id, Succeeded).jobs, id), Cleared(w.asks, job), Closed(w, job.root))
    case Cancel(id) => Ended(w, id, Cancelled).(episodes := Closed(w, w.jobs[id].root))
    case Fail(id, f) => Settled(Ended(w, id, Failed), id, f, versions)
  }

  // ---------- what every step keeps ----------

  function Last(chain: seq<Id>): Id
    requires chain != []
  {
    chain[|chain| - 1]
  }

  /** The i-th job of an open chain: its row is there and points to the one before; all but the last failed;
      retries exist only of a published run with a version, and keep its channel, version and settings. */
  ghost predicate LinkOk(jobs: map<Id, Job>, ep: Episode, r: Id, i: nat)
    requires i < |ep.chain|
  {
    && ep.chain[i] in jobs
    && var job := jobs[ep.chain[i]];
       && job.root == r
       && job.retryOf == (if i == 0 then None else Some(ep.chain[i - 1]))
       && job.status == (if i == |ep.chain| - 1 then Active else Failed)
       && job.channel == ep.first.channel && job.published == ep.first.published && job.version == ep.first.version
       && job.settings == ep.first.settings && job.kind == (if i == 0 then ep.first.kind else RetryRun)
  }

  ghost predicate LiveChain(jobs: map<Id, Job>, ep: Episode, r: Id) {
    forall i :: 0 <= i < |ep.chain| ==> LinkOk(jobs, ep, r, i)
  }

  /** The bounds of one episode, open or closed. */
  ghost predicate Bounded(ep: Episode, r: Id, versions: Versions) {
    && ep.chain != [] && ep.chain[0] == r && ep.errors <= 1 && ep.bumps <= 1
    && (forall i, j :: 0 <= i < j < |ep.chain| ==> ep.chain[i] != ep.chain[j])
    && |ep.chain| - 1 <= Limit(ep.first.settings)
    && (|ep.chain| > 1 ==> ep.first.published && ep.first.version.Some? && ep.first.kind != ErrorWorkflow)
    && (ep.first.kind.ErrorWorkflow? ==> ep.errors == 0)
    && (!ep.first.published ==> ep.bumps == 0)
    && (!ep.closed ==> ep.errors == 0 && ep.bumps == 0)
    && (ep.errors == 1 && ep.first.published ==> ep.bumps == 1)
    && NewRun(r, ep.first, versions)
  }

  ghost predicate EpisodeOk(w: World, r: Id, versions: Versions) {
    r in w.episodes ==>
      && Bounded(w.episodes[r], r, versions)
      && (!w.episodes[r].closed ==> LiveChain(w.jobs, w.episodes[r], r))
  }

  /** Every job belongs to an episode, and only the last job of an open one is still active. */
  ghost predicate JobOk(w: World, id: Id) {
    id in w.jobs ==>
      var job := w.jobs[id];
      && job.root in w.episodes && id in w.episodes[job.root].chain
      && (job.status.Active? ==>
            var ep := w.episodes[job.root];
            !ep.closed && ep.chain != [] && id == Last(ep.chain))
  }

  ghost predicate Sound(w: World, versions: Versions) {
    (forall r :: EpisodeOk(w, r, versions)) && (forall id :: JobOk(w, id))
  }

  /** The j-th job of a chain has its row, which points to the one before. */
  ghost predicate Linked(jobs: map<Id, Job>, chain: seq<Id>, j: nat)
    requires j < |chain|
  {
    chain[j] in jobs && jobs[chain[j]].retryOf == (if j == 0 then None else Some(chain[j - 1]))
  }

  /** While the rows of an open chain are there, counting back from its i-th job gives i. */
  lemma {:induction false} BehindCounts(jobs: map<Id, Job>, chain: seq<Id>, i: nat, seen: set<Id>)
    requires i < |chain| && (forall j :: 0 <= j <= i ==> Linked(jobs, chain, j)) && forall j :: 0 <= j < i ==>
        chain[j] !in seen
    requires forall j, k :: 0 <= j < k < |chain| ==> chain[j] != chain[k]
    ensures Linked(jobs, chain, i) && Behind(jobs, jobs[chain[i]], seen) == i
    decreases i
  {
    assert Linked(jobs, chain, i);
    if i > 0 {
      BehindCounts(jobs, chain, i - 1, seen + {chain[i - 1]});
    }
  }

  /** Releasing an open chain drops none but its own jobs. */
  lemma {:induction false} DoomedInChain(jobs: map<Id, Job>, chain: seq<Id>, i: nat, seen: set<Id>)
    requires i < |chain| && forall j :: 0 <= j <= i ==> Linked(jobs, chain, j)
    ensures Linked(jobs, chain, i) && forall d :: d in Doomed(jobs, chain[i], seen) ==> d in chain
    decreases i
  {
    assert Linked(jobs, chain, i) && chain[i] in chain;
    if i > 0 && chain[i] !in seen {
      DoomedInChain(jobs, chain, i - 1, seen + {chain[i]});
    }
  }

  // ---------- one step ----------

  /** An open chain stays as it is when its own rows do. */
  lemma ChainStays(v: World, w: World, r: Id, versions: Versions)
    requires EpisodeOk(v, r, versions)
    requires r in w.episodes ==> r in v.episodes && w.episodes[r] == v.episodes[r]
    requires r in v.episodes && !v.episodes[r].closed ==>
      forall id :: id in v.episodes[r].chain && id in v.jobs ==> id in w.jobs && w.jobs[id] == v.jobs[id]
    ensures EpisodeOk(w, r, versions)
  {
    if r in w.episodes && !w.episodes[r].closed {
      var ep := w.episodes[r];
      forall i | 0 <= i < |ep.chain| ensures LinkOk(w.jobs, ep, r, i) {
        assert LinkOk(v.jobs, ep, r, i);
        assert ep.chain[i] in ep.chain;
      }
    }
  }

  /** The rows of one open chain are not in another's. */
  lemma ChainsApart(w: World, r: Id, id: Id, versions: Versions)
    requires Sound(w, versions) && r in w.episodes && !w.episodes[r].closed && id in w.episodes[r].chain
    ensures id in w.jobs && w.jobs[id].root == r
  {
    assert EpisodeOk(w, r, versions);
    var i :| 0 <= i < |w.episodes[r].chain| && w.episodes[r].chain[i] == id;
    assert LinkOk(w.jobs, w.episodes[r], r, i);
  }

  lemma StartKeepsSound(w: World, id: Id, job: Job, versions: Versions)
    requires Sound(w, versions) && Enabled(w, Start(id, job), versions)
    ensures Sound(Apply(w, Start(id, job), versions), versions)
  {
    var v := Apply(w, Start(id, job), versions);
    forall r ensures EpisodeOk(v, r, versions) {
      if r == id {
        assert LinkOk(v.jobs, v.episodes[r], r, 0);
      } else {
        if r in w.episodes {
          assert id !in w.episodes[r].chain;
        }
        ChainStays(w, v, r, versions);
      }
    }
    forall x ensures JobOk(v, x) {
      assert JobOk(w, x);
    }
  }

  /** A run that ends without a follow-up closes its episode; others are not touched. */
  lemma EndKeepsSound(w: World, e: Event, versions: Versions)
    requires Sound(w, versions) && Enabled(w, e, versions) && (e.Succeed? || e.Cancel?)
    ensures JobOk(w, e.id) && Sound(Apply(w, e, versions), versions)
  {
    assert JobOk(w, e.id);
    var root := w.jobs[e.id].root;
    var v := Apply(w, e, versions);
    assert EpisodeOk(w, root, versions);
    forall r ensures EpisodeOk(v, r, versions) {
      if r != root {
        if r in w.episodes && !w.episodes[r].closed && e.id in w.episodes[r].chain {
          ChainsApart(w, r, e.id, versions);
        }
        ChainStays(w, v, r, versions);
      }
    }
    forall x ensures JobOk(v, x) {
      assert JobOk(w, x);
    }
  }

  /** What is known of the job that just failed. */
  lemma FailedTip(w: World, id: Id, versions: Versions)
    requires Sound(w, versions) && id in w.jobs && w.jobs[id].status.Active?
    ensures JobOk(w, id) && EpisodeOk(w, w.jobs[id].root, versions)
    ensures var ep, failed := w.episodes[w.jobs[id].root], Ended(w, id, Failed);
      && !ep.closed && ep.chain != [] && Last(ep.chain) == id && LinkOk(w.jobs, ep, w.jobs[id].root, |ep.chain| - 1)
      && Behind(failed.jobs, failed.jobs[id], {}) == |ep.chain| - 1
      && forall j :: 0 <= j < |ep.chain| ==> Linked(failed.jobs, ep.chain, j)
  {
    assert JobOk(w, id) && EpisodeOk(w, w.jobs[id].root, versions);
    var r := w.jobs[id].root;
    var ep, failed := w.episodes[r], Ended(w, id, Failed);
    var n := |ep.chain| - 1;
    assert LinkOk(w.jobs, ep, r, n);
    forall j | 0 <= j <= n ensures Linked(failed.jobs, ep.chain, j) {
      assert LinkOk(w.jobs, ep, r, j);
    }
    BehindCounts(failed.jobs, ep.chain, n, {});
  }

  /** Episodes other than the failing one, and jobs outside its chain, are as they were. */
  lemma OtherEpisodes(w: World, v: World, root: Id, versions: Versions, added: set<Id>)
    requires Sound(w, versions) && root in w.episodes && !w.episodes[root].closed
    requires forall r ::
      r in v.episodes && r != root && r !in added ==> r in w.episodes && v.episodes[r] == w.episodes[r]
    requires forall x :: x in w.jobs && w.jobs[x].root != root ==> x in v.jobs && v.jobs[x] == w.jobs[x]
    requires forall x :: x in added ==> Fresh(w, x)
    ensures forall r :: r != root && r !in added ==> EpisodeOk(v, r, versions)
  {
    forall r | r != root && r !in added ensures EpisodeOk(v, r, versions) {
      assert EpisodeOk(w, r, versions);
      if r in w.episodes && !w.episodes[r].closed {
        forall x | x in w.episodes[r].chain ensures x in w.jobs && w.jobs[x].root == r {
          ChainsApart(w, r, x, versions);
        }
      }
      ChainStays(w, v, r, versions);
    }
  }

  /** A retry extends the chain by one, within the limit. */
  lemma RetryKeepsSound(w: World, id: Id, f: Followups, versions: Versions)
    requires Sound(w, versions) && Enabled(w, Fail(id, f), versions) && f.retry.Some?
    requires JobOk(w, id) && Retries(Ended(w, id, Failed), id)
    ensures Sound(Apply(w, Fail(id, f), versions), versions)
  {
    FailedTip(w, id, versions);
    var v, r, next := Apply(w, Fail(id, f), versions), w.jobs[id].root, f.retry.value;
    var ep := w.episodes[r];
    assert next !in ep.chain;
    assert v.jobs == Ended(w, id, Failed).jobs[next := RetryOf(w.jobs[id], id, versions)];
    assert v.episodes == w.episodes[r := ep.(chain := ep.chain + [next])];
    OtherEpisodes(w, v, r, versions, {});
    RetryExtendsChain(w, v.jobs, id, next, versions);
    forall x ensures JobOk(v, x) {
      JobAfterRetry(w, v, id, next, x);
    }
  }

  lemma RetryExtendsChain(w: World, jobs: map<Id, Job>, id: Id, next: Id, versions: Versions)
    requires id in w.jobs && w.jobs[id].status.Active? && w.jobs[id].root in w.episodes && next !in w.jobs
    requires w.jobs[id].version.Some?
    requires jobs == Ended(w, id, Failed).jobs[next := RetryOf(w.jobs[id], id, versions)]
    requires var ep := w.episodes[w.jobs[id].root];
      && LiveChain(w.jobs, ep, w.jobs[id].root) && ep.chain != [] && Last(ep.chain) == id
      && (forall i, j :: 0 <= i < j < |ep.chain| ==> ep.chain[i] != ep.chain[j])
      && ep.first.published && ep.first.settings == versions(ep.first.channel, w.jobs[id].version.value)
    ensures var ep := w.episodes[w.jobs[id].root];
      LiveChain(jobs, ep.(chain := ep.chain + [next]), w.jobs[id].root)
  {
    var r := w.jobs[id].root;
    var ep := w.episodes[r];
    var more := ep.(chain := ep.chain + [next]);
    assert LinkOk(w.jobs, ep, r, |ep.chain| - 1);
    forall i | 0 <= i < |more.chain| ensures LinkOk(jobs, more, r, i) {
      if i < |ep.chain| {
        assert LinkOk(w.jobs, ep, r, i);
      }
    }
  }

  lemma JobAfterRetry(w: World, v: World, id: Id, next: Id, x: Id)
    requires JobOk(w, x) && JobOk(w, id) && id in w.jobs && w.jobs[id].status.Active?
    requires next !in w.jobs && next in v.jobs && v.jobs[next].root == w.jobs[id].root
    requires forall y :: y in v.jobs && y != next ==> y in w.jobs && v.jobs[y] == Ended(w, id, Failed).jobs[y]
    requires var root := w.jobs[id].root; var ep := w.episodes[root];
      root in v.episodes && v.episodes == w.episodes[root := ep.(chain := ep.chain + [next])]
    ensures JobOk(v, x)
  {
    var root := w.jobs[id].root;
    var chain := w.episodes[root].chain;
    assert (chain + [next])[|chain|] == next;
    assert forall i :: 0 <= i < |chain| ==> (chain + [next])[i] == chain[i];
    if x in v.jobs && x != next && x != id {
      assert v.jobs[x] == w.jobs[x];
      if w.jobs[x].status.Active? {
        assert w.jobs[x].root != root;
      }
    }
  }

  /** The jobs after a failure with no retry: the failed job's chain has lost some rows, an error run may be new. */
  ghost predicate JobsAfterClosing(w: World, v: World, id: Id, added: set<Id>)
    requires id in w.jobs && w.jobs[id].root in w.episodes
  {
    && (forall x :: x in w.jobs && x !in w.episodes[w.jobs[id].root].chain ==> x in v.jobs && v.jobs[x] == w.jobs[x])
    && (forall x :: x in v.jobs && x !in added ==> x in w.jobs && v.jobs[x] == Ended(w, id, Failed).jobs[x])
    && (forall x :: x in added ==> x in v.jobs)
  }

  lemma ClosingKeepsSound(w: World, v: World, id: Id, added: set<Id>, versions: Versions)
    requires Sound(w, versions) && id in w.jobs && w.jobs[id].status.Active? && JobOk(w, id)
    requires JobsAfterClosing(w, v, id, added) && forall x :: x in added ==> Fresh(w, x)
    requires forall r :: r in v.episodes <==> r in w.episodes || r in added
    requires forall r :: r in w.episodes && r != w.jobs[id].root ==> v.episodes[r] == w.episodes[r]
    requires v.episodes[w.jobs[id].root].closed
    requires v.episodes[w.jobs[id].root].chain == w.episodes[w.jobs[id].root].chain
    requires Bounded(v.episodes[w.jobs[id].root], w.jobs[id].root, versions)
    requires forall x :: x in added ==> EpisodeOk(v, x, versions) && JobOk(v, x)
    ensures Sound(v, versions)
  {
    var root := w.jobs[id].root;
    assert EpisodeOk(w, root, versions);
    forall x | x in w.jobs && w.jobs[x].root != root ensures x !in w.episodes[root].chain {
      if x in w.episodes[root].chain {
        ChainsApart(w, root, x, versions);
      }
    }
    OtherEpisodes(w, v, root, versions, added);
    forall r ensures EpisodeOk(v, r, versions) {}
    forall x | x !in added ensures JobOk(v, x) {
      ClosedChainJob(w, v, id, added, x);
    }
  }

  lemma ClosedChainJob(w: World, v: World, id: Id, added: set<Id>, x: Id)
    requires JobOk(w, x) && JobOk(w, id) && id in w.jobs && w.jobs[id].status.Active?
    requires JobsAfterClosing(w, v, id, added) && x !in added
    requires forall r :: r in w.episodes ==> r in v.episodes
    requires forall r :: r in w.episodes && r != w.jobs[id].root ==> v.episodes[r] == w.episodes[r]
    requires v.episodes[w.jobs[id].root].chain == w.episodes[w.jobs[id].root].chain
    ensures JobOk(v, x)
  {
    if x in v.jobs && x != id {
      assert v.jobs[x] == w.jobs[x];
      if w.jobs[x].status.Active? {
        assert w.jobs[x].root != w.jobs[id].root;
      }
    }
  }

  /** The error run a failure starts, if any. */
  function ErrorRun(w: World, id: Id, f: Followups): Option<(Id, Job)>
    requires id in w.jobs
  {
    if w.jobs[id].kind.ErrorWorkflow? || Retries(Ended(w, id, Failed), id) || w.jobs[id].settings.errorChannel.None?
        then None
    else f.error
  }

  /** The failing episode once closed. */
  function ClosedBy(w: World, id: Id, f: Followups): Episode
    requires id in w.jobs && w.jobs[id].root in w.episodes
  {
    var job, ep := w.jobs[id], w.episodes[w.jobs[id].root];
    var counted := if job.published && (job.kind.ErrorWorkflow? || !Retries(Ended(w, id, Failed), id)) then 1 else 0;
    ep.(closed := true, bumps := ep.bumps + counted, errors := ep.errors + (if ErrorRun(w, id, f).Some? then 1 else 0))
  }

  function Added(error: Option<(Id, Job)>): set<Id> {
    if error.Some? then {error.value.0} else {}
  }

  lemma OnlyTheChainIsDoomed(w: World, id: Id, f: Followups, versions: Versions)
    requires Sound(w, versions) && Enabled(w, Fail(id, f), versions)
    ensures w.jobs[id].root in w.episodes
    ensures forall d ::
      d in Doomed(Minted(Ended(w, id, Failed).jobs, ErrorRun(w, id, f)), id, {}) ==>
          d in w.episodes[w.jobs[id].root].chain
  {
    FailedTip(w, id, versions);
    var ep, minted := w.episodes[w.jobs[id].root], Minted(Ended(w, id, Failed).jobs, ErrorRun(w, id, f));
    forall j | 0 <= j < |ep.chain| ensures Linked(minted, ep.chain, j) {
      assert Linked(Ended(w, id, Failed).jobs, ep.chain, j);
      assert ep.chain[j] in ep.chain;
    }
    DoomedInChain(minted, ep.chain, |ep.chain| - 1, {});
  }

  lemma JobsLeftByClosing(w: World, id: Id, f: Followups, versions: Versions)
    requires id in w.jobs && w.jobs[id].root in w.episodes && id in w.episodes[w.jobs[id].root].chain
    requires Enabled(w, Fail(id, f), versions) && !(Retries(Ended(w, id, Failed), id) && f.retry.Some?)
    requires forall d ::
      d in Doomed(Minted(Ended(w, id, Failed).jobs, ErrorRun(w, id, f)), id, {}) ==>
          d in w.episodes[w.jobs[id].root].chain
    ensures JobsAfterClosing(w, Apply(w, Fail(id, f), versions), id, Added(ErrorRun(w, id, f)))
    ensures ErrorRun(w, id, f).Some? ==>
      Apply(w, Fail(id, f), versions).jobs[ErrorRun(w, id, f).value.0] == ErrorRun(w, id, f).value.1
  {
  }

  lemma EpisodesLeftByClosing(w: World, id: Id, f: Followups, versions: Versions)
    requires id in w.jobs && w.jobs[id].root in w.episodes && id in w.episodes[w.jobs[id].root].chain
    requires Enabled(w, Fail(id, f), versions) && !(Retries(Ended(w, id, Failed), id) && f.retry.Some?)
    ensures var error, closed := ErrorRun(w, id, f), w.episodes[w.jobs[id].root := ClosedBy(w, id, f)];
      Apply(w, Fail(id, f), versions).episodes
      == if error.Some? then closed[error.value.0 := Episode(error.value.1, [error.value.0], 0, 0, false)] else closed
  {
  }

  /** The closed episode keeps its bounds: counted once, at most one error run, none from an error run. */
  lemma ClosedIsBounded(w: World, id: Id, f: Followups, versions: Versions)
    requires id in w.jobs && w.jobs[id].root in w.episodes
    requires var ep, job := w.episodes[w.jobs[id].root], w.jobs[id];
      && Bounded(ep, job.root, versions) && !ep.closed && LinkOk(w.jobs, ep, job.root, |ep.chain| - 1)
          && Last(ep.chain) == id
    ensures Bounded(ClosedBy(w, id, f), w.jobs[id].root, versions)
  {
  }

  lemma CloseWithFacts(w: World, v: World, id: Id, error: Option<(Id, Job)>, closed: Episode, versions: Versions)
    requires Sound(w, versions) && id in w.jobs && w.jobs[id].status.Active? && JobOk(w, id)
    requires Bounded(closed, w.jobs[id].root, versions) && closed.closed
    requires closed.chain == w.episodes[w.jobs[id].root].chain
    requires error.Some? ==> Fresh(w, error.value.0) && NewRun(error.value.0, error.value.1, versions)
    requires JobsAfterClosing(w, v, id, Added(error)) && (error.Some? ==> v.jobs[error.value.0] == error.value.1)
    requires var episodes := w.episodes[w.jobs[id].root := closed];
      v.episodes == if error.Some? then episodes[error.value.0 := Episode(error.value.1, [error.value.0], 0, 0, false)]
          else episodes
    ensures Sound(v, versions)
  {
    if error.Some? {
      assert LinkOk(v.jobs, v.episodes[error.value.0], error.value.0, 0);
      assert EpisodeOk(v, error.value.0, versions) && JobOk(v, error.value.0);
    }
    ClosingKeepsSound(w, v, id, Added(error), versions);
  }

  /** With no retry the episode closes. */
  lemma CloseKeepsSound(w: World, id: Id, f: Followups, versions: Versions)
    requires Sound(w, versions) && Enabled(w, Fail(id, f), versions)
    requires JobOk(w, id) && !(Retries(Ended(w, id, Failed), id) && f.retry.Some?)
    ensures Sound(Apply(w, Fail(id, f), versions), versions)
  {
    FailedTip(w, id, versions);
    assert id in w.episodes[w.jobs[id].root].chain;
    OnlyTheChainIsDoomed(w, id, f, versions);
    JobsLeftByClosing(w, id, f, versions);
    EpisodesLeftByClosing(w, id, f, versions);
    ClosedIsBounded(w, id, f, versions);
    CloseWithFacts(w, Apply(w, Fail(id, f), versions), id, ErrorRun(w, id, f), ClosedBy(w, id, f), versions);
  }

  lemma FailKeepsSound(w: World, id: Id, f: Followups, versions: Versions)
    requires Sound(w, versions) && Enabled(w, Fail(id, f), versions)
    ensures JobOk(w, id) && Sound(Apply(w, Fail(id, f), versions), versions)
  {
    assert JobOk(w, id);
    if Retries(Ended(w, id, Failed), id) && f.retry.Some? {
      RetryKeepsSound(w, id, f, versions);
    } else {
      CloseKeepsSound(w, id, f, versions);
    }
  }

  // ---------- histories ----------

  ghost predicate Next(v: World, w: World, versions: Versions) {
    exists e :: Enabled(v, e, versions) && (e.Start? || v.jobs[e.id].root in v.episodes) && w == Apply(v, e, versions)
  }

  ghost predicate IsHistory(worlds: seq<World>, versions: Versions) {
    && |worlds| > 0 && worlds[0] == World(map[], [], map[])
    && forall i :: 0 <= i < |worlds| - 1 ==> Next(worlds[i], worlds[i + 1], versions)
  }

  lemma NextKeepsSound(v: World, w: World, versions: Versions)
    requires Sound(v, versions) && Next(v, w, versions)
    ensures Sound(w, versions)
  {
    var e :| Enabled(v, e, versions) && (e.Start? || v.jobs[e.id].root in v.episodes) && w == Apply(v, e, versions);
    match e
    case Start(id, job) => StartKeepsSound(v, id, job, versions);
    case Succeed(_) => EndKeepsSound(v, e, versions);
    case Cancel(_) => EndKeepsSound(v, e, versions);
    case Fail(id, f) => FailKeepsSound(v, id, f, versions);
  }

  lemma {:induction false} HistoryIsSound(worlds: seq<World>, i: nat, versions: Versions)
    requires IsHistory(worlds, versions) && i < |worlds|
    ensures Sound(worlds[i], versions)
  {
    if i > 0 {
      HistoryIsSound(worlds, i - 1, versions);
      NextKeepsSound(worlds[i - 1], worlds[i], versions);
    }
  }

  /** In every history one run leads to at most as many retries as its limit allows, never more than ten, and
      at most one error run; an error run leads to nothing. */
  lemma CascadeIsBounded(worlds: seq<World>, root: Id, versions: Versions)
    requires IsHistory(worlds, versions) && root in worlds[|worlds| - 1].episodes
    ensures var ep := worlds[|worlds| - 1].episodes[root];
      && |ep.chain| - 1 <= Limit(ep.first.settings) <= 10
      && ep.errors <= 1 && ep.bumps <= 1
      && (ep.first.kind.ErrorWorkflow? ==> |ep.chain| == 1 && ep.errors == 0)
  {
    HistoryIsSound(worlds, |worlds| - 1, versions);
    assert EpisodeOk(worlds[|worlds| - 1], root, versions);
  }

  /** While an episode is open every job of its chain is there, on the channel and version it started with,
      and counting ancestors from the active one gives the number of retries so far: nothing the settling
      itself discards is missing. */
  lemma OpenChainsAreWhole(worlds: seq<World>, id: Id, versions: Versions)
    requires IsHistory(worlds, versions) && id in worlds[|worlds| - 1].jobs
    requires worlds[|worlds| - 1].jobs[id].status.Active?
    ensures var w := worlds[|worlds| - 1];
      && w.jobs[id].root in w.episodes
      && var ep := w.episodes[w.jobs[id].root];
         && (forall x :: x in ep.chain ==>
             x in w.jobs && w.jobs[x].channel == ep.first.channel && w.jobs[x].version == ep.first.version)
         && Behind(w.jobs, w.jobs[id], {}) == |ep.chain| - 1
  {
    var w := worlds[|worlds| - 1];
    HistoryIsSound(worlds, |worlds| - 1, versions);
    FailedTip(w, id, versions);
    var r := w.jobs[id].root;
    var ep := w.episodes[r];
    forall j | 0 <= j < |ep.chain| ensures Linked(w.jobs, ep.chain, j) {
      assert LinkOk(w.jobs, ep, r, j);
    }
    BehindCounts(w.jobs, ep.chain, |ep.chain| - 1, {});
    forall x | x in ep.chain ensures x in w.jobs && w.jobs[x].channel == ep.first.channel
        && w.jobs[x].version == ep.first.version {
      var j :| 0 <= j < |ep.chain| && ep.chain[j] == x;
      assert LinkOk(w.jobs, ep, r, j);
    }
  }

  /** A failure either queues the next retry and counts nothing, or closes the episode; a closed published
      episode has asked to be counted exactly once, unless a retry was due and could not be queued. */
  lemma FailureIsCountedOnce(w: World, id: Id, f: Followups, versions: Versions)
    requires Sound(w, versions) && Enabled(w, Fail(id, f), versions) && w.jobs[id].root in w.episodes
    ensures var v, job, due := Apply(w, Fail(id, f), versions), w.jobs[id], Retries(Ended(w, id, Failed), id);
      var before, after := w.episodes[job.root], v.episodes[job.root];
      && (after.closed <==> !(due && f.retry.Some?))
      && before.bumps == 0 && (after.bumps == 1 <==> job.published && !due) && after.bumps <= 1
      && v.asks == w.asks + (if after.bumps == 1 then [Ask(job.channel, Streaks.Bump)] else [])
      && after.first == before.first && job.channel == after.first.channel
      && forall r :: r in v.episodes && r != job.root ==>
           if r in w.episodes then v.episodes[r] == w.episodes[r] else v.episodes[r].bumps == 0
  {
    assert JobOk(w, id) && EpisodeOk(w, w.jobs[id].root, versions);
    FailedTip(w, id, versions);
  }

  /** A published success asks once for the streak to be cleared, and counts nothing. */
  lemma SuccessAsksToClear(w: World, id: Id, versions: Versions)
    requires Sound(w, versions) && Enabled(w, Succeed(id), versions) && w.jobs[id].root in w.episodes
    ensures var v, job := Apply(w, Succeed(id), versions), w.jobs[id];
      && v.episodes == w.episodes[job.root := w.episodes[job.root].(closed := true)]
      && v.asks == w.asks + (if job.published then [Ask(job.channel, Streaks.Clear)] else [])
  {
    assert JobOk(w, id);
  }

  function AskCount(asks: seq<Ask>, a: Ask): nat {
    if asks == [] then 0
    else AskCount(asks[..|asks| - 1], a) + if asks[|asks| - 1] == a then 1 else 0
  }

  lemma AskedOnceMore(asks: seq<Ask>, b: Ask, a: Ask)
    ensures AskCount(asks + [b], a) == AskCount(asks, a) + if a == b then 1 else 0
  {
    assert (asks + [b])[..|asks|] == asks;
  }

  /** The episodes of a channel that asked to be counted. */
  ghost function CountedEpisodes(w: World, channel: Id): set<Id> {
    set r | r in w.episodes && w.episodes[r].first.channel == channel && w.episodes[r].bumps == 1
  }

  /** Nothing was counted: no episode's count moved, and a new one starts uncounted. */
  lemma NothingCounted(v: World, w: World, channel: Id)
    requires v.episodes.Keys <= w.episodes.Keys
    requires forall r :: r in w.episodes ==>
      if r in v.episodes then w.episodes[r].first == v.episodes[r].first && w.episodes[r].bumps == v.episodes[r].bumps
      else w.episodes[r].bumps == 0
    ensures CountedEpisodes(w, channel) == CountedEpisodes(v, channel)
  {}

  /** One episode was counted. */
  lemma OneCounted(v: World, w: World, root: Id, channel: Id)
    requires root in v.episodes && root in w.episodes && v.episodes[root].bumps == 0 && w.episodes[root].bumps == 1
    requires w.episodes[root].first == v.episodes[root].first && v.episodes.Keys <= w.episodes.Keys
    requires forall r :: r in w.episodes && r != root ==>
      if r in v.episodes then w.episodes[r] == v.episodes[r] else w.episodes[r].bumps == 0
    ensures CountedEpisodes(w, channel)
         == CountedEpisodes(v, channel) + if w.episodes[root].first.channel == channel then {root} else {}
    ensures root !in CountedEpisodes(v, channel)
  {}

  lemma FailureAsks(v: World, id: Id, f: Followups, channel: Id, versions: Versions)
    requires Sound(v, versions) && Enabled(v, Fail(id, f), versions) && v.jobs[id].root in v.episodes
    ensures var w, bump := Apply(v, Fail(id, f), versions), Ask(channel, Streaks.Bump);
      AskCount(w.asks, bump) - AskCount(v.asks, bump) == |CountedEpisodes(w, channel)| - |CountedEpisodes(v, channel)|
  {
    FailureIsCountedOnce(v, id, f, versions);
    hide Apply, Sound, Enabled, CountedEpisodes;
    var w, root := Apply(v, Fail(id, f), versions), v.jobs[id].root;
    if w.episodes[root].bumps == 1 {
      AskedOnceMore(v.asks, Ask(v.jobs[id].channel, Streaks.Bump), Ask(channel, Streaks.Bump));
      OneCounted(v, w, root, channel);
    } else {
      NothingCounted(v, w, channel);
    }
  }

  lemma SuccessAsks(v: World, id: Id, channel: Id, versions: Versions)
    requires Sound(v, versions) && Enabled(v, Succeed(id), versions) && v.jobs[id].root in v.episodes
    ensures var w, bump := Apply(v, Succeed(id), versions), Ask(channel, Streaks.Bump);
      AskCount(w.asks, bump) == AskCount(v.asks, bump) && CountedEpisodes(w, channel) == CountedEpisodes(v, channel)
  {
    SuccessAsksToClear(v, id, versions);
    AskedOnceMore(v.asks, Ask(v.jobs[id].channel, Streaks.Clear), Ask(channel, Streaks.Bump));
    NothingCounted(v, Apply(v, Succeed(id), versions), channel);
  }

  lemma StepAsks(v: World, w: World, channel: Id, versions: Versions)
    requires Sound(v, versions) && Next(v, w, versions)
    ensures AskCount(w.asks, Ask(channel, Streaks.Bump)) - AskCount(v.asks, Ask(channel, Streaks.Bump))
         == |CountedEpisodes(w, channel)| - |CountedEpisodes(v, channel)|
  {
    hide Sound;
    var e :| Enabled(v, e, versions) && (e.Start? || v.jobs[e.id].root in v.episodes) && w == Apply(v, e, versions);
    match e
    case Start(_, _) => NothingCounted(v, w, channel);
    case Cancel(_) => NothingCounted(v, w, channel);
    case Succeed(id) => SuccessAsks(v, id, channel, versions);
    case Fail(id, f) => FailureAsks(v, id, f, channel, versions);
  }

  /** In every history a channel's streak is asked to count as often as there are published episodes of it that
      ended without a retry due: each once. */
  lemma {:induction false} CountsAskedAreEpisodes(worlds: seq<World>, channel: Id, versions: Versions)
    requires IsHistory(worlds, versions)
    ensures var w := worlds[|worlds| - 1];
      AskCount(w.asks, Ask(channel, Streaks.Bump)) == |CountedEpisodes(w, channel)|
    decreases |worlds|
  {
    var n := |worlds| - 1;
    if n > 0 {
      HistoryIsSound(worlds, n - 1, versions);
      assert IsHistory(worlds[..n], versions);
      CountsAskedAreEpisodes(worlds[..n], channel, versions);
      StepAsks(worlds[n - 1], worlds[n - 1 + 1], channel, versions);
    }
  }

  lemma Then(worlds: seq<World>, e: Event, versions: Versions) returns (longer: seq<World>)
    requires IsHistory(worlds, versions)
    requires var v := worlds[|worlds| - 1]; Enabled(v, e, versions) && (e.Start? || v.jobs[e.id].root in v.episodes)
    ensures IsHistory(longer, versions) && longer[|longer| - 1] == Apply(worlds[|worlds| - 1], e, versions)
  {
    var n := |worlds| - 1;
    longer := worlds + [Apply(worlds[n], e, versions)];
    assert Next(worlds[n], Apply(worlds[n], e, versions), versions);
    forall i | 0 <= i < n + 1 ensures Next(longer[i], longer[i + 1], versions) {
      assert i < n ==> Next(worlds[i], worlds[i + 1], versions);
    }
  }

  /** The exception is real: a published run that may be retried once fails, its retry cannot be queued, and the
      episode ends without having asked to be counted. */
  lemma LostRetryIsNotCounted(settings: Settings, channel: Id) returns (worlds: seq<World>)
    requires settings.retryLimit == Number(1)
    ensures IsHistory(worlds, (c, v) => settings)
    ensures var w, r := worlds[|worlds| - 1], Id("run");
      && r in w.episodes && w.episodes[r].first.published && w.episodes[r].closed
      && w.episodes[r].bumps == 0 && w.asks == []
  {
    var id, versions: Versions := Id("run"), (c, v) => settings;
    var job := Job(Ordinary, false, None, channel, true, Some(1), settings, Active, id);
    worlds := [World(map[], [], map[])];
    worlds := Then(worlds, Start(id, job), versions);
    var w := worlds[|worlds| - 1];
    assert Behind(Ended(w, id, Failed).jobs, Ended(w, id, Failed).jobs[id], {}) == 0;
    assert Limit(settings) == 1;
    worlds := Then(worlds, Fail(id, Followups(None, None)), versions);
  }

  // ---------- the stores, written in sequence ----------

  class Settlement {
    var jobs: map<Id, Job>
    var asks: seq<Ask>
    ghost var episodes: map<Id, Episode>

    ghost function Now(): World
      reads this
    {
      World(jobs, asks, episodes)
    }

    /** The streak itself is read and saved as module Streaks describes. */
    method BumpStreak(job: Job)
      modifies this`asks
      ensures asks == Bumped(old(asks), job)
    {
      if job.published {
        asks := asks + [Ask(job.channel, Streaks.Bump)];
      }
    }

    method DiscardJob(id: Id)
      requires id in jobs
      modifies this`jobs
      ensures jobs == Without(old(jobs), id)
    {
      if Discards(jobs[id]) {
        jobs := jobs - {id};
      }
    }

    /** Advancing checkpoints comes first and is described with the checkpoints. */
    method SettleSuccess(id: Id)
      requires id in jobs && jobs[id].status.Succeeded?
      modifies this
      ensures Now() == World(Without(old(jobs), id), Cleared(old(asks), old(jobs)[id]),
          Closed(old(Now()), old(jobs)[id].root))
    {
      if jobs[id].published {
        asks := asks + [Ask(jobs[id].channel, Streaks.Clear)];
      }
      episodes := Closed(Now(), jobs[id].root);
      DiscardJob(id);
    }

    /** `f` says how the attempts to queue follow-ups would go. */
    method SettleFailure(id: Id, f: Followups, versions: Versions)
      requires id in jobs && jobs[id].root in episodes && jobs[id].status.Failed?
      requires f.retry.Some? ==> f.retry.value !in jobs
      modifies this
      ensures Now() == Settled(old(Now()), id, f, versions)
    {
      ghost var before := Now();
      var job := jobs[id];
      episodes := Settled(before, id, f, versions).episodes;
      if job.kind.ErrorWorkflow? {
        BumpStreak(job);
        DiscardJob(id);
        return;
      }
      if job.published && job.version.Some? {
        var behind := Ancestors(jobs, job);
        if behind < Limit(job.settings) {
          if f.retry.Some? {
            jobs := jobs[f.retry.value := RetryOf(job, id, versions)];
          }
          return;
        }
      }
      BumpStreak(job);
      if job.settings.errorChannel.Some? && f.error.Some? {
        jobs := jobs[f.error.value.0 := f.error.value.1];
      }
      jobs := ReleaseFailedChain(jobs, id);
    }
  }
}
