/** One record per channel, path and event id, so that a repeated inbound call gets the first answer.
    `history` remembers what every operation did, and its laws are what the store promises. */
module InboundDedup {
  import opened Digraph
  import opened ChannelGraph

  datatype Key = Key(channel: Id, path: Id, event: Id)

  datatype Reply = Reply(json: string)

  datatype Row = Row(answer: Option<Reply>, expiresAt: int, job: Option<Id>)

  datatype Admission = Replay(reply: Reply) | InFlight | Reserved

  datatype Event =
    | Admitted(key: Key, at: int, until: int)
    | Repeated(key: Key, reply: Reply)
    | Refused(key: Key)
    | Attached(key: Key, job: Id)
    | Dropped(keys: set<Key>)
    | Wrote(key: Key, job: Id, reply: Reply)
    | Expired(keys: set<Key>)

  /** The answers written for a key since its latest reservation. */
  function Answers(history: seq<Event>, key: Key): seq<(Id, Reply)> {
    if history == [] then []
    else
      var before, e := history[..|history| - 1], history[|history| - 1];
      if e.Admitted? && e.key == key then []
      else if e.Wrote? && e.key == key then Answers(before, key) + [(e.job, e.reply)]
      else Answers(before, key)
  }

  /** The jobs attached to a key since its latest reservation. */
  function Jobs(history: seq<Event>, key: Key): seq<Id> {
    if history == [] then []
    else
      var before, e := history[..|history| - 1], history[|history| - 1];
      if e.Admitted? && e.key == key then []
      else if e.Attached? && e.key == key then Jobs(before, key) + [e.job]
      else Jobs(before, key)
  }

  function Repeats(history: seq<Event>, channel: Id): nat {
    if history == [] then 0
    else
      var e := history[|history| - 1];
      Repeats(history[..|history| - 1], channel) + (if e.Repeated? && e.key.channel == channel then 1 else 0)
  }

  /** Is the reservation made at i still undisturbed: neither abandoned nor released since? */
  ghost predicate Undropped(history: seq<Event>, i: nat, key: Key) {
    forall m :: i < m < |history| && history[m].Dropped? ==> key !in history[m].keys
  }

  /** No reservation while an earlier one of the same key runs; a repeat gets the one answer written since the
      reservation, by the one job attached; an answer is written once; only unanswered records are dropped. */
  ghost predicate EventOk(history: seq<Event>, e: Event) {
    match e
    case Admitted(key, at, _) =>
      forall i :: 0 <= i < |history| && history[i].Admitted? && history[i].key == key && Undropped(history, i, key) ==>
          history[i].until <= at
    case Repeated(key, reply) => exists job :: Jobs(history, key) == [job] && Answers(history, key) == [(job, reply)]
    case Refused(key) => Answers(history, key) == []
    case Attached(key, job) => Jobs(history, key) == [] && Answers(history, key) == []
    case Dropped(keys) => forall key :: key in keys ==> Answers(history, key) == []
    case Wrote(key, job, _) => Jobs(history, key) == [job] && Answers(history, key) == []
    case Expired(_) => true
  }

  ghost predicate Lawful(history: seq<Event>) {
    forall j :: 0 <= j < |history| ==> EventOk(history[..j], history[j])
  }

  /** A record says what happened to its key since the reservation. */
  ghost predicate RowTells(history: seq<Event>, key: Key, row: Row) {
    && Jobs(history, key) == (if row.job.None? then [] else [row.job.value])
    && (row.answer.None? ==> Answers(history, key) == [])
    && (row.answer.Some? ==> row.job.Some? && Answers(history, key) == [(row.job.value, row.answer.value)])
  }

  /** A reservation not dropped is still recorded until it expires. */
  ghost predicate ReservationHolds(rows: map<Key, Row>, history: seq<Event>, clock: int, i: nat) {
    i < |history| && history[i].Admitted? && Undropped(history, i, history[i].key) ==>
      history[i].until <= clock || (history[i].key in rows && rows[history[i].key].expiresAt >= history[i].until)
  }

  ghost predicate HitsTell(hits: map<Id, nat>, history: seq<Event>) {
    forall channel: Id :: Repeats(history, channel) == Hits(hits, channel)
  }

  function Hits(hits: map<Id, nat>, channel: Id): nat {
    if channel in hits then hits[channel] else 0
  }

  ghost predicate Kept(rows: map<Key, Row>, history: seq<Event>, clock: int) {
    && Lawful(history)
    && (forall key :: key in rows ==> RowTells(history, key, rows[key]))
    && (forall i: nat :: ReservationHolds(rows, history, clock, i))
  }

  /** One more event that obeys the laws, with rows that tell it. */
  lemma OneMore(rows: map<Key, Row>, history: seq<Event>, clock: int, e: Event, after: map<Key, Row>, now: int)
    requires Kept(rows, history, clock) && clock <= now && EventOk(history, e)
    requires forall key :: key in after ==> RowTells(history + [e], key, after[key])
    requires forall i: nat :: i <= |history| ==> ReservationHolds(after, history + [e], now, i)
    ensures Kept(after, history + [e], now)
  {
    var more := history + [e];
    forall j | 0 <= j < |more| ensures EventOk(more[..j], more[j]) {
      if j < |history| {
        assert more[..j] == history[..j];
      } else {
        assert more[..j] == history;
      }
    }
  }

  lemma OthersUnmoved(history: seq<Event>, e: Event, key: Key)
    requires match e
             case Admitted(k, _, _) => k != key
             case Attached(k, _) => k != key
             case Wrote(k, _, _) => k != key
             case _ => true
    ensures Jobs(history + [e], key) == Jobs(history, key) && Answers(history + [e], key) == Answers(history, key)
  {
    assert (history + [e])[..|history|] == history;
  }

  lemma UndroppedBefore(history: seq<Event>, e: Event, i: nat, key: Key)
    requires i < |history| && Undropped(history + [e], i, key)
    ensures Undropped(history, i, key) && (e.Dropped? ==> key !in e.keys)
  {
    forall m | i < m < |history| && history[m].Dropped? ensures key !in history[m].keys {
      assert (history + [e])[m] == history[m];
    }
    assert (history + [e])[|history|] == e;
  }

  /** A reservation stays recorded across an event that keeps its row and does not drop it. */
  lemma HoldsOn(rows: map<Key, Row>, history: seq<Event>, clock: int, e: Event, after: map<Key, Row>, now: int, i: nat)
    requires i < |history| && ReservationHolds(rows, history, clock, i) && clock <= now
    requires history[i].Admitted? && history[i].key in rows && !(e.Dropped? && history[i].key in e.keys)
      ==> rows[history[i].key].expiresAt <= now
          || (history[i].key in after && after[history[i].key].expiresAt >= rows[history[i].key].expiresAt)
    ensures ReservationHolds(after, history + [e], now, i)
  {
    if history[i].Admitted? && Undropped(history + [e], i, history[i].key) {
      UndroppedBefore(history, e, i, history[i].key);
    }
  }

  lemma ReserveKeeps(rows: map<Key, Row>, history: seq<Event>, clock: int, key: Key, at: int, until: int)
    requires Kept(rows, history, clock) && clock <= at && (key in rows ==> rows[key].expiresAt <= at)
    ensures Kept(rows[key := Row(None, until, None)], history + [Admitted(key, at, until)], at)
  {
    var e, after := Admitted(key, at, until), rows[key := Row(None, until, None)];
    forall i | 0 <= i < |history| && history[i].Admitted? && history[i].key == key && Undropped(history, i, key)
      ensures history[i].until <= at
    {
      assert ReservationHolds(rows, history, clock, i);
    }
    forall k | k in after ensures RowTells(history + [e], k, after[k]) {
      if k != key {
        OthersUnmoved(history, e, k);
      }
    }
    forall i: nat | i <= |history| ensures ReservationHolds(after, history + [e], at, i) {
      if i < |history| {
        HoldsOn(rows, history, clock, e, after, at, i);
      }
    }
    OneMore(rows, history, clock, e, after, at);
  }

  /** Rows that stay as they are, or go because they were dropped or had expired. */
  lemma ShrinkKeeps(rows: map<Key, Row>, history: seq<Event>, clock: int, e: Event, gone: set<Key>, now: int)
    requires Kept(rows, history, clock) && clock <= now && EventOk(history, e)
    requires match e
             case Repeated(_, _) => gone == {}
             case Refused(_) => gone == {}
             case Dropped(keys) => gone == keys
             case Expired(keys) => gone == keys && forall k :: k in gone && k in rows ==> rows[k].expiresAt <= now
             case _ => false
    ensures Kept(rows - gone, history + [e], now)
  {
    var after := rows - gone;
    forall k | k in after ensures RowTells(history + [e], k, after[k]) {
      OthersUnmoved(history, e, k);
    }
    forall i: nat | i <= |history| ensures ReservationHolds(after, history + [e], now, i) {
      if i < |history| {
        HoldsOn(rows, history, clock, e, after, now, i);
      }
    }
    OneMore(rows, history, clock, e, after, now);
  }

  /** A job attached to, or an answer written into, an unanswered record. */
  lemma FillKeeps(rows: map<Key, Row>, history: seq<Event>, clock: int, key: Key, e: Event, row: Row)
    requires Kept(rows, history, clock) && key in rows && rows[key].answer.None? && row.expiresAt == rows[key].expiresAt
    requires match e
             case Attached(k, job) => k == key && rows[key].job.None? && row.job == Some(job) && row.answer.None?
             case Wrote(k, job, reply) => k == key && rows[key].job == Some(job) && row.job == Some(job)
                 && row.answer == Some(reply)
             case _ => false
    ensures Kept(rows[key := row], history + [e], clock)
  {
    var after := rows[key := row];
    assert RowTells(history, key, rows[key]);
    assert (history + [e])[..|history|] == history;
    forall k | k in after ensures RowTells(history + [e], k, after[k]) {
      if k != key {
        OthersUnmoved(history, e, k);
      }
    }
    forall i: nat | i <= |history| ensures ReservationHolds(after, history + [e], clock, i) {
      if i < |history| {
        HoldsOn(rows, history, clock, e, after, clock, i);
      }
    }
    OneMore(rows, history, clock, e, after, clock);
  }

  lemma HitsStay(hits: map<Id, nat>, history: seq<Event>, e: Event)
    requires HitsTell(hits, history)
    ensures !e.Repeated? ==> HitsTell(hits, history + [e])
    ensures e.Repeated? ==> HitsTell(hits[e.key.channel := Hits(hits, e.key.channel) + 1], history + [e])
  {
    assert (history + [e])[..|history|] == history;
    forall channel: Id ensures Repeats(history + [e], channel) == Repeats(history, channel)
        + (if e.Repeated? && e.key.channel == channel then 1 else 0) {
    }
  }

  class MemoryInboundDedupStore {
    var rows: map<Key, Row>
    var hits: map<Id, nat>
    ghost var history: seq<Event>
    ghost var clock: int

    ghost predicate Valid()
      reads this
    {
      Kept(rows, history, clock) && HitsTell(hits, history)
    }

    ghost method Record(e: Event, now: int)
      modifies this`history, this`clock
      ensures history == old(history) + [e] && clock == now
    {
      history, clock := history + [e], now;
    }

    method Admit(key: Key, at: int, until: int) returns (admission: Admission)
      requires Valid() && clock <= at
      modifies this
      ensures Valid() && clock == at
      ensures match admission
              case Reserved => history == old(history) + [Admitted(key, at, until)]
                  && rows == old(rows)[key := Row(None, until, None)]
              case InFlight => history == old(history) + [Refused(key)] && rows == old(rows)
              case Replay(reply) => history == old(history) + [Repeated(key, reply)] && rows == old(rows)
      ensures admission.Reserved? <==> key !in old(rows) || old(rows)[key].expiresAt <= at
    {
      if key in rows && rows[key].expiresAt > at {
        assert RowTells(history, key, rows[key]);
        assert rows - {} == rows;
        if rows[key].answer.Some? {
          var reply := rows[key].answer.value;
          hits := hits[key.channel := Hits(hits, key.channel) + 1];
          HitsStay(old(hits), history, Repeated(key, reply));
          ShrinkKeeps(rows, history, clock, Repeated(key, reply), {}, at);
          Record(Repeated(key, reply), at);
          return Replay(reply);
        }
        HitsStay(hits, history, Refused(key));
        ShrinkKeeps(rows, history, clock, Refused(key), {}, at);
        Record(Refused(key), at);
        return InFlight;
      }
      HitsStay(hits, history, Admitted(key, at, until));
      ReserveKeeps(rows, history, clock, key, at, until);
      rows := rows[key := Row(None, until, None)];
      Record(Admitted(key, at, until), at);
      return Reserved;
    }

    method AttachJob(key: Key, job: Id)
      requires Valid()
      modifies this
      ensures Valid() && clock == old(clock) && hits == old(hits)
      ensures if key in old(rows) && old(rows)[key].answer.None? && old(rows)[key].job.None?
              then rows == old(rows)[key := old(rows)[key].(job := Some(job))]
                  && history == old(history) + [Attached(key, job)]
              else rows == old(rows) && history == old(history)
    {
      if key !in rows || rows[key].answer.Some? || rows[key].job.Some? {
        return;
      }
      HitsStay(hits, history, Attached(key, job));
      FillKeeps(rows, history, clock, key, Attached(key, job), rows[key].(job := Some(job)));
      rows := rows[key := rows[key].(job := Some(job))];
      Record(Attached(key, job), clock);
    }

    method Abandon(key: Key)
      requires Valid()
      modifies this
      ensures Valid() && clock == old(clock) && hits == old(hits)
      ensures if key in old(rows) && old(rows)[key].answer.None? && old(rows)[key].job.None?
              then rows == old(rows) - {key} && history == old(history) + [Dropped({key})]
              else rows == old(rows) && history == old(history)
    {
      if key !in rows || rows[key].answer.Some? || rows[key].job.Some? {
        return;
      }
      assert RowTells(history, key, rows[key]);
      HitsStay(hits, history, Dropped({key}));
      ShrinkKeeps(rows, history, clock, Dropped({key}), {key}, clock);
      rows := rows - {key};
      Record(Dropped({key}), clock);
    }

    method Answer(key: Key, job: Id, reply: Reply) returns (written: bool)
      requires Valid()
      modifies this
      ensures Valid() && clock == old(clock) && hits == old(hits)
      ensures written <==> key in old(rows) && old(rows)[key].answer.None? && old(rows)[key].job == Some(job)
      ensures if written then rows == old(rows)[key := old(rows)[key].(answer := Some(reply))]
          && history == old(history) + [Wrote(key, job, reply)]
              else rows == old(rows) && history == old(history)
    {
      if key !in rows || rows[key].answer.Some? || rows[key].job != Some(job) {
        return false;
      }
      HitsStay(hits, history, Wrote(key, job, reply));
      FillKeeps(rows, history, clock, key, Wrote(key, job, reply), rows[key].(answer := Some(reply)));
      rows := rows[key := rows[key].(answer := Some(reply))];
      Record(Wrote(key, job, reply), clock);
      return true;
    }

    method ReleaseUnanswered(job: Id)
      requires Valid()
      modifies this
      ensures Valid() && clock == old(clock) && hits == old(hits)
      ensures forall key ::
        key in rows <==> key in old(rows) && !(old(rows)[key].job == Some(job) && old(rows)[key].answer.None?)
      ensures forall key :: key in rows ==> rows[key] == old(rows)[key]
    {
      var doomed := set key | key in rows && rows[key].job == Some(job) && rows[key].answer.None?;
      forall key | key in doomed ensures Answers(history, key) == [] {
        assert RowTells(history, key, rows[key]);
      }
      HitsStay(hits, history, Dropped(doomed));
      ShrinkKeeps(rows, history, clock, Dropped(doomed), doomed, clock);
      Remove(doomed);
      Record(Dropped(doomed), clock);
    }

    method DeleteExpired(now: int) returns (deleted: nat)
      requires Valid() && clock <= now
      modifies this
      ensures Valid() && clock == now && hits == old(hits)
      ensures forall key :: key in rows <==> key in old(rows) && old(rows)[key].expiresAt > now
      ensures forall key :: key in rows ==> rows[key] == old(rows)[key]
      ensures deleted == |old(rows)| - |rows|
    {
      var doomed := set key | key in rows && rows[key].expiresAt <= now;
      HitsStay(hits, history, Expired(doomed));
      ShrinkKeeps(rows, history, clock, Expired(doomed), doomed, now);
      Remove(doomed);
      Record(Expired(doomed), now);
      assert rows.Keys == old(rows).Keys - doomed;
      return |doomed|;
    }

    method Remove(doomed: set<Key>)
      requires doomed <= rows.Keys
      modifies this`rows
      ensures rows == old(rows) - doomed
    {
      var left := doomed;
      while left != {}
        invariant left <= doomed && rows == old(rows) - (doomed - left)
      {
        var key :| key in left;
        rows := rows - {key};
        left := left - {key};
      }
      assert doomed - {} == doomed;
    }

    method HitCount(channel: Id) returns (count: nat)
      requires Valid()
      ensures count == Repeats(history, channel)
    {
      count := Hits(hits, channel);
    }
  }

  /** Between two reservations of one key the first has run out, or was dropped unanswered. */
  lemma ReservationsDoNotOverlap(rows: map<Key, Row>, history: seq<Event>, clock: int, i: nat, j: nat)
    requires Kept(rows, history, clock) && i < j < |history|
    requires history[i].Admitted? && history[j].Admitted? && history[i].key == history[j].key
    ensures history[j].at >= history[i].until
      || exists m :: i < m < j && history[m].Dropped? && history[i].key in history[m].keys
          && Answers(history[..m], history[i].key) == []
  {
    var key, before := history[i].key, history[..j];
    assert EventOk(before, history[j]);
    if !Undropped(before, i, key) {
      var m :| i < m < |before| && before[m].Dropped? && key in before[m].keys;
      assert EventOk(history[..m], history[m]);
    }
  }

  /** Two repeats with no new reservation between them get the same answer. */
  lemma RepeatsAgree(rows: map<Key, Row>, history: seq<Event>, clock: int, i: nat, j: nat)
    requires Kept(rows, history, clock) && i < j < |history|
    requires history[i].Repeated? && history[j].Repeated? && history[i].key == history[j].key
    requires forall m :: i < m < j ==> !(history[m].Admitted? && history[m].key == history[i].key)
    ensures history[i].reply == history[j].reply
  {
    var key := history[i].key;
    assert EventOk(history[..i], history[i]) && EventOk(history[..j], history[j]);
    AnswersStay(history, key, i, j);
    var a :| Answers(history[..i], key) == [(a, history[i].reply)];
    var b :| Answers(history[..j], key) == [(b, history[j].reply)];
    assert Answers(history[..i], key)[0] == Answers(history[..j], key)[0];
  }

  lemma {:induction false} AnswersStay(history: seq<Event>, key: Key, i: nat, j: nat)
    requires i <= j <= |history| && Lawful(history)
    requires forall m :: i <= m < j ==> !(history[m].Admitted? && history[m].key == key)
    ensures Answers(history[..i], key) <= Answers(history[..j], key)
  {
    hide EventOk;
    if i < j {
      AnswersStay(history, key, i, j - 1);
      assert history[..j][..j - 1] == history[..j - 1];
    }
  }
}
