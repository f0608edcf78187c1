/** The failure streak of one channel. Whoever writes it reads the whole record in one transaction and saves it in
    another, with nothing locked between: a failure counts one up from what it read, a success writes zero, an edit
    of the channel writes back what it read. Each step below is one of those transactions. */
module Streaks {
  import opened ChannelGraph

  datatype Kind = Bump | Clear | Edit

  /** A settlement or edit on its way: asked for, a failure between its two reads, holding what it will save, over.
      `since` is how many saves had happened when it first read. */
  datatype Writer =
    | Asked(kind: Kind)
    | Counted(seen: nat, since: nat)
    | Holding(kind: Kind, seen: nat, since: nat)
    | Done

  /** A save that happened: who made it, the streak it had read and when, and the streak it left. */
  datatype Save = Save(kind: Kind, seen: nat, since: nat, after: nat)

  /** `streak` is gone with the channel. */
  datatype Channel = Channel(streak: Option<nat>, writers: map<nat, Writer>, saves: seq<Save>)

  const NEW: Channel := Channel(Some(0), map[], [])

  datatype Act =
    | Ask(p: nat, kind: Kind)
    | Look(p: nat)
    | LookAgain(p: nat)
    | Put(p: nat)
    | Delete

  predicate Can(c: Channel, a: Act) {
    match a
    case Ask(p, _) => p !in c.writers
    case Look(p) => p in c.writers && c.writers[p].Asked?
    case LookAgain(p) => p in c.writers && c.writers[p].Counted?
    case Put(p) => p in c.writers && c.writers[p].Holding?
    case Delete => true
  }

  function Written(kind: Kind, seen: nat): nat {
    match kind
    case Bump => seen + 1
    case Clear => 0
    case Edit => seen
  }

  /** The first read. A missing channel ends the matter, and so does a success that finds nothing to clear. */
  function Looked(c: Channel, kind: Kind): Writer {
    if c.streak.None? || (kind.Clear? && c.streak.value == 0) then Done
    else if kind.Bump? then Counted(c.streak.value, |c.saves|)
    else Holding(kind, c.streak.value, |c.saves|)
  }

  function Do(c: Channel, a: Act): Channel
    requires Can(c, a)
  {
    match a
    case Ask(p, kind) => c.(writers := c.writers[p := Asked(kind)])
    case Look(p) => c.(writers := c.writers[p := Looked(c, c.writers[p].kind)])
    case LookAgain(p) =>
      var w := c.writers[p];
      c.(writers := c.writers[p := if c.streak.None? then Done else Holding(Bump, w.seen, w.since)])
    case Put(p) =>
      var w := c.writers[p];
      if c.streak.None? then c.(writers := c.writers[p := Done])
      else
        var after := Written(w.kind, w.seen);
        Channel(Some(after), c.writers[p := Done], c.saves + [Save(w.kind, w.seen, w.since, after)])
    case Delete => c.(streak := None)
  }

  ghost predicate Step(c: Channel, d: Channel) {
    exists a :: Can(c, a) && d == Do(c, a)
  }

  ghost predicate IsHistory(channels: seq<Channel>) {
    && |channels| > 0 && channels[0] == NEW
    && forall i :: 0 <= i < |channels| - 1 ==> Step(channels[i], channels[i + 1])
  }

  // ---------- what every step keeps ----------

  /** The streak after the first n saves. */
  function StreakAt(saves: seq<Save>, n: nat): nat
    requires n <= |saves|
  {
    if n == 0 then 0 else saves[n - 1].after
  }

  predicate SaveFits(saves: seq<Save>, k: nat)
    requires k < |saves|
  {
    saves[k].since <= k && saves[k].seen == StreakAt(saves, saves[k].since)
    && saves[k].after == Written(saves[k].kind, saves[k].seen)
  }

  ghost predicate AllFit(saves: seq<Save>) {
    forall k :: 0 <= k < |saves| ==> SaveFits(saves, k)
  }

  ghost predicate WriterFits(c: Channel, p: nat) {
    p in c.writers ==>
      match c.writers[p]
      case Counted(seen, since) => since <= |c.saves| && seen == StreakAt(c.saves, since)
      case Holding(_, seen, since) => since <= |c.saves| && seen == StreakAt(c.saves, since)
      case _ => true
  }

  ghost predicate Valid(c: Channel) {
    && AllFit(c.saves) && (forall p :: WriterFits(c, p))
    && (c.streak.Some? ==> c.streak.value == StreakAt(c.saves, |c.saves|))
  }

  lemma OneMoreSave(saves: seq<Save>, s: Save)
    requires AllFit(saves) && s.since <= |saves| && s.seen == StreakAt(saves, s.since)
    requires s.after == Written(s.kind, s.seen)
    ensures AllFit(saves + [s]) && StreakAt(saves + [s], |saves| + 1) == s.after
    ensures forall n :: 0 <= n <= |saves| ==> StreakAt(saves + [s], n) == StreakAt(saves, n)
  {
    forall k | 0 <= k < |saves| + 1 ensures SaveFits(saves + [s], k) {
      if k < |saves| { assert SaveFits(saves, k); }
    }
  }

  lemma StepKeepsValid(c: Channel, d: Channel)
    requires Valid(c) && Step(c, d)
    ensures Valid(d) && c.saves <= d.saves
  {
    var a :| Can(c, a) && d == Do(c, a);
    if a.Put? && c.streak.Some? {
      var w := c.writers[a.p];
      assert WriterFits(c, a.p);
      OneMoreSave(c.saves, Save(w.kind, w.seen, w.since, Written(w.kind, w.seen)));
    }
    forall p ensures WriterFits(d, p) {
      assert WriterFits(c, p);
    }
  }

  lemma {:induction false} HistoryIsValid(channels: seq<Channel>, i: nat)
    requires IsHistory(channels) && i < |channels|
    ensures Valid(channels[i])
  {
    if i > 0 {
      HistoryIsValid(channels, i - 1);
      StepKeepsValid(channels[i - 1], channels[i - 1 + 1]);
    }
  }

  // ---------- what the streak should be ----------

  /** The failures saved since the last success was. */
  function Ideal(saves: seq<Save>): nat {
    if saves == [] then 0
    else
      var before := Ideal(saves[..|saves| - 1]);
      match saves[|saves| - 1].kind
      case Bump => before + 1
      case Clear => 0
      case Edit => before
  }

  /** The streak has been what it should be all along. */
  ghost predicate AlwaysRight(saves: seq<Save>) {
    forall n :: 0 <= n <= |saves| ==> StreakAt(saves, n) == Ideal(saves[..n])
  }

  /** At its save, a failure or an edit found the streak that it had read. A success need not. */
  predicate Unchanged(saves: seq<Save>, k: nat)
    requires k < |saves|
  {
    saves[k].kind.Clear? || saves[k].seen == StreakAt(saves, k)
  }

  ghost predicate AllUnchanged(saves: seq<Save>) {
    forall k :: 0 <= k < |saves| ==> Unchanged(saves, k)
  }

  lemma IdealStep(saves: seq<Save>, k: nat)
    requires k < |saves|
    ensures Ideal(saves[..k + 1]) == match saves[k].kind
                                     case Bump => Ideal(saves[..k]) + 1
                                     case Clear => 0
                                     case Edit => Ideal(saves[..k])
  {
    assert saves[..k + 1][..k] == saves[..k];
  }

  lemma {:induction false} UnchangedIsRight(saves: seq<Save>, n: nat)
    requires AllFit(saves) && n <= |saves| && forall k :: 0 <= k < n ==> Unchanged(saves, k)
    ensures StreakAt(saves, n) == Ideal(saves[..n])
  {
    if n > 0 {
      UnchangedIsRight(saves, n - 1);
      IdealStep(saves, n - 1);
      assert SaveFits(saves, n - 1) && Unchanged(saves, n - 1);
    }
  }

  /** In every history of one channel: the streak counts the failures since the last success, at every moment,
      exactly when every failure and every edit found at its save the streak it had read. */
  lemma RightIffUnchanged(channels: seq<Channel>)
    requires IsHistory(channels)
    ensures var saves := channels[|channels| - 1].saves;
      AlwaysRight(saves) <==> AllUnchanged(saves)
  {
    HistoryIsValid(channels, |channels| - 1);
    var saves := channels[|channels| - 1].saves;
    if AllUnchanged(saves) {
      forall n | 0 <= n <= |saves| ensures StreakAt(saves, n) == Ideal(saves[..n]) {
        UnchangedIsRight(saves, n);
      }
    }
    if AlwaysRight(saves) {
      forall k | 0 <= k < |saves| ensures Unchanged(saves, k) {
        IdealStep(saves, k);
        assert SaveFits(saves, k);
        assert StreakAt(saves, k) == Ideal(saves[..k]) && StreakAt(saves, k + 1) == Ideal(saves[..k + 1]);
      }
    }
  }

  /** No save of another writer falls between the first read and the save of the k-th. */
  predicate Alone(saves: seq<Save>, k: nat)
    requires k < |saves|
  {
    saves[k].since == k
  }

  ghost predicate AllAlone(saves: seq<Save>) {
    forall k :: 0 <= k < |saves| ==> Alone(saves, k)
  }

  /** So it is enough that nobody else's save falls between a read and its save. */
  lemma AloneIsRight(channels: seq<Channel>)
    requires IsHistory(channels) && AllAlone(channels[|channels| - 1].saves)
    ensures AlwaysRight(channels[|channels| - 1].saves)
  {
    HistoryIsValid(channels, |channels| - 1);
    var saves := channels[|channels| - 1].saves;
    forall k | 0 <= k < |saves| ensures Unchanged(saves, k) {
      assert SaveFits(saves, k) && Alone(saves, k);
    }
    RightIffUnchanged(channels);
  }

  // ---------- between two successes ----------

  ghost predicate NoSuccess(saves: seq<Save>) {
    forall k :: 0 <= k < |saves| ==> !saves[k].kind.Clear?
  }

  /** No failure is saved between the first read and the save of the k-th. */
  ghost predicate Undisturbed(saves: seq<Save>, k: nat)
    requires k < |saves|
  {
    forall j :: saves[k].since <= j < k ==> !saves[j].kind.Bump?
  }

  lemma {:induction false} IdealGrows(saves: seq<Save>, i: nat, j: nat)
    requires NoSuccess(saves) && i <= j <= |saves|
    ensures Ideal(saves[..i]) <= Ideal(saves[..j])
    ensures Ideal(saves[..i]) == Ideal(saves[..j]) <==> forall m :: i <= m < j ==> !saves[m].kind.Bump?
  {
    if i < j {
      IdealGrows(saves, i, j - 1);
      IdealStep(saves, j - 1);
    }
  }

  /** While no success clears it, the streak counts every failure, at every moment, exactly when no failure of the
      channel is saved between the first read of a failure or an edit and its save. */
  lemma RightIffUndisturbed(channels: seq<Channel>)
    requires IsHistory(channels) && NoSuccess(channels[|channels| - 1].saves)
    ensures var saves := channels[|channels| - 1].saves;
      AlwaysRight(saves) <==> forall k :: 0 <= k < |saves| ==> Undisturbed(saves, k)
  {
    HistoryIsValid(channels, |channels| - 1);
    var saves := channels[|channels| - 1].saves;
    if AlwaysRight(saves) {
      RightIffUnchanged(channels);
      forall k | 0 <= k < |saves| ensures Undisturbed(saves, k) {
        assert SaveFits(saves, k) && Unchanged(saves, k);
        assert StreakAt(saves, k) == Ideal(saves[..k]);
        assert StreakAt(saves, saves[k].since) == Ideal(saves[..saves[k].since]);
        IdealGrows(saves, saves[k].since, k);
      }
    }
    if forall k :: 0 <= k < |saves| ==> Undisturbed(saves, k) {
      forall n | 0 <= n <= |saves| ensures StreakAt(saves, n) == Ideal(saves[..n]) {
        UndisturbedIsRight(saves, n);
      }
    }
  }

  lemma {:induction false} UndisturbedIsRight(saves: seq<Save>, n: nat)
    requires AllFit(saves) && NoSuccess(saves) && n <= |saves|
    requires forall k :: 0 <= k < |saves| ==> Undisturbed(saves, k)
    ensures StreakAt(saves, n) == Ideal(saves[..n])
    decreases n
  {
    if n > 0 {
      var k := n - 1;
      assert SaveFits(saves, k) && Undisturbed(saves, k);
      UndisturbedIsRight(saves, saves[k].since);
      IdealGrows(saves, saves[k].since, k);
      IdealStep(saves, k);
    }
  }

  // ---------- failures alone ----------

  ghost predicate OnlyFailures(saves: seq<Save>) {
    forall k :: 0 <= k < |saves| ==> saves[k].kind.Bump?
  }

  /** The streak never counts more failures than were saved, and falls behind for good as soon as one of them did
      not have the record to itself. */
  lemma {:induction false} FailuresCounted(saves: seq<Save>, n: nat)
    requires AllFit(saves) && OnlyFailures(saves) && n <= |saves|
    ensures StreakAt(saves, n) <= n
    ensures StreakAt(saves, n) == n <==> forall k :: 0 <= k < n ==> Alone(saves, k)
    decreases n
  {
    if n > 0 {
      var k := n - 1;
      assert SaveFits(saves, k) && saves[k].kind.Bump?;
      FailuresCounted(saves, saves[k].since);
      FailuresCounted(saves, k);
      if forall j :: 0 <= j < n ==> Alone(saves, j) { assert Alone(saves, k); }
    }
  }

  /** While a channel only fails: every failure is counted exactly when no other failure of the channel is saved
      between the first read of one and its save. */
  lemma EveryFailureCounts(channels: seq<Channel>)
    requires IsHistory(channels) && channels[|channels| - 1].streak.Some?
    requires OnlyFailures(channels[|channels| - 1].saves)
    ensures var c := channels[|channels| - 1];
      && c.streak.value <= |c.saves|
      && (c.streak.value == |c.saves| <==> AllAlone(c.saves))
  {
    HistoryIsValid(channels, |channels| - 1);
    FailuresCounted(channels[|channels| - 1].saves, |channels[|channels| - 1].saves|);
  }

  // ---------- what is lost ----------

  lemma Then(channels: seq<Channel>, a: Act) returns (longer: seq<Channel>)
    requires IsHistory(channels) && Can(channels[|channels| - 1], a)
    ensures IsHistory(longer) && longer[|longer| - 1] == Do(channels[|channels| - 1], a)
  {
    var n := |channels| - 1;
    longer := channels + [Do(channels[n], a)];
    assert Step(channels[n], Do(channels[n], a));
    forall i | 0 <= i < n + 1 ensures Step(longer[i], longer[i + 1]) {
      assert i < n ==> Step(channels[i], channels[i + 1]);
    }
  }

  /** A failure asked for and settled with nobody between. */
  lemma OneFailure() returns (channels: seq<Channel>)
    ensures IsHistory(channels)
    ensures channels[|channels| - 1] == Channel(Some(1), map[1 := Done], [Save(Bump, 0, 0, 1)])
  {
    channels := [NEW];
    channels := Then(channels, Ask(1, Bump));
    channels := Then(channels, Look(1));
    channels := Then(channels, LookAgain(1));
    channels := Then(channels, Put(1));
  }

  /** Two failures settled at once: both read nothing, both save one. */
  lemma TwoFailuresCountOnce() returns (channels: seq<Channel>)
    ensures IsHistory(channels)
    ensures channels[|channels| - 1].saves == [Save(Bump, 0, 0, 1), Save(Bump, 0, 0, 1)]
    ensures channels[|channels| - 1].streak == Some(1)
  {
    channels := [NEW];
    channels := Then(channels, Ask(1, Bump));
    channels := Then(channels, Ask(2, Bump));
    channels := Then(channels, Look(1));
    channels := Then(channels, Look(2));
    channels := Then(channels, LookAgain(1));
    channels := Then(channels, Put(1));
    channels := Then(channels, LookAgain(2));
    channels := Then(channels, Put(2));
  }

  /** A failure that had read before a success cleared the streak brings the old count back. */
  lemma StaleFailureUndoesASuccess() returns (channels: seq<Channel>)
    ensures IsHistory(channels)
    ensures channels[|channels| - 1].saves == [Save(Bump, 0, 0, 1), Save(Clear, 1, 1, 0), Save(Bump, 1, 1, 2)]
    ensures channels[|channels| - 1].streak == Some(2) && Ideal(channels[|channels| - 1].saves) == 1
  {
    channels := OneFailure();
    channels := Then(channels, Ask(2, Bump));
    channels := Then(channels, Ask(3, Clear));
    channels := Then(channels, Look(2));
    channels := Then(channels, Look(3));
    channels := Then(channels, LookAgain(2));
    channels := Then(channels, Put(3));
    channels := Then(channels, Put(2));
    IdealStep(channels[|channels| - 1].saves, 2);
    IdealStep(channels[|channels| - 1].saves, 1);
  }

  /** The calls a settlement makes, one after the other. With nobody between them a failure adds one and a success
      leaves nothing. */
  class Store {
    var streak: Option<nat>

    constructor ()
      ensures streak == NEW.streak
    {
      streak := Some(0);
    }

    method Save(value: nat) returns (found: bool)
      modifies this
      ensures found == old(streak).Some? && streak == if found then Some(value) else None
    {
      found := streak.Some?;
      if found {
        streak := Some(value);
      }
    }

    method WriteStreak(value: nat)
      modifies this
      ensures streak == if old(streak).Some? then Some(value) else None
    {
      var record := streak;
      if record.None? {
        return;
      }
      if value == 0 && record.value == 0 {
        return;
      }
      var found := Save(value);
    }

    method BumpStreak()
      modifies this
      ensures streak == if old(streak).Some? then Some(old(streak).value + 1) else None
    {
      var record := streak;
      if record.None? {
        return;
      }
      WriteStreak(record.value + 1);
    }
  }
}
