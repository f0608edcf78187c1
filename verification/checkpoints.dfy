/** Durable cursors and one run's session over them: where a node may start, what it proposes, and what
    moves when the run is settled. */
module Checkpoints {
  import opened Digraph
  import opened ChannelGraph
  import opened CommitLog
  import opened Transactions

  /** A checkpoint-owning node and the stream it reads. */
  datatype Spot = Spot(node: Id, stream: Entity)

  datatype Key = Key(channel: Id, spot: Spot)

  predicate Ahead(left: Position, right: Position) {
    Before(right, left)
  }

  function Later(left: Position, right: Position): Position {
    if Ahead(right, left) then right else left
  }

  function MaxPosition(left: Option<Position>, right: Option<Position>): Option<Position> {
    if left.None? then right else if right.None? then left else Some(Later(left.value, right.value))
  }

  function Get<K>(rows: map<K, Position>, key: K): Option<Position> {
    if key in rows then Some(rows[key]) else None
  }

  /** One key moved up to a position, or left where it is when that is already as far. */
  function Raise<K>(rows: map<K, Position>, key: K, position: Position): (r: map<K, Position>)
    ensures key in r && !Before(r[key], position)
    ensures forall k :: k in rows ==> k in r && !Before(r[k], rows[k]) && (k != key ==> r[k] == rows[k])
    ensures r[key] == position || (key in rows && r[key] == rows[key])
  {
    if key in rows && !Ahead(position, rows[key]) then rows else rows[key := position]
  }

  /** The nested form a run's proposals are stored in. */
  type Blob = map<Id, map<Entity, Position>>

  function Flatten(blob: Blob): map<Spot, Position> {
    map n, s | n in blob && s in blob[n] :: Spot(n, s) := blob[n][s]
  }

  function Proposals(blob: Option<Blob>): map<Spot, Position> {
    if blob.None? then map[] else Flatten(blob.value)
  }

  /** Writing and reading the nested form lose nothing. */
  method DumpProposals(proposals: map<Spot, Position>) returns (blob: Blob)
    ensures Flatten(blob) == proposals
    ensures forall n :: n in blob ==> blob[n] != map[]
  {
    blob := map[];
    var left := proposals.Keys;
    while left != {}
      invariant left <= proposals.Keys
      invariant forall spot :: spot in proposals && spot !in left ==> Filed(blob, spot, proposals[spot])
      invariant forall n, s :: n in blob && s in blob[n] ==> Spot(n, s) in proposals && Spot(n, s) !in left
      invariant forall n :: n in blob ==> blob[n] != map[]
    {
      var spot :| spot in left;
      var streams := if spot.node in blob then blob[spot.node] else map[];
      blob := blob[spot.node := streams[spot.stream := proposals[spot]]];
      left := left - {spot};
    }
    forall spot | spot in proposals ensures spot in Flatten(blob) && Flatten(blob)[spot] == proposals[spot] {
      assert Filed(blob, spot, proposals[spot]);
    }
    assert Flatten(blob).Keys == proposals.Keys;
  }

  predicate Filed(blob: Blob, spot: Spot, position: Position) {
    spot.node in blob && spot.stream in blob[spot.node] && blob[spot.node][spot.stream] == position
  }

  method LoadProposals(blob: Option<Blob>) returns (loaded: map<Spot, Position>)
    ensures loaded == Proposals(blob)
  {
    loaded := map[];
    if blob.None? {
      return;
    }
    var left := Flatten(blob.value).Keys;
    while left != {}
      invariant left <= Flatten(blob.value).Keys
      invariant loaded == Flatten(blob.value) - left
    {
      var spot :| spot in left;
      loaded := loaded[spot := blob.value[spot.node][spot.stream]];
      left := left - {spot};
    }
  }

  class MemoryCheckpointStore {
    var rows: map<Key, Position>

    method Read(key: Key) returns (position: Option<Position>)
      ensures position == Get(rows, key)
    {
      position := if key in rows then Some(rows[key]) else None;
    }

    method Advance(key: Key, position: Position)
      modifies this
      ensures rows == Raise(old(rows), key, position)
    {
      if key !in rows || Ahead(position, rows[key]) {
        rows := rows[key := position];
      }
    }

    method DeleteForChannel(channel: Id)
      modifies this
      ensures rows == map k | k in old(rows) && k.channel != channel :: old(rows)[k]
    {
      var doomed := set k | k in rows && k.channel == channel;
      while doomed != {}
        invariant doomed <= rows.Keys && forall k :: k in doomed ==> k.channel == channel
        invariant forall k :: k in old(rows) && k.channel != channel ==> k in rows
        invariant forall k ::
          k in rows ==> k in old(rows) && rows[k] == old(rows)[k] && (k.channel == channel ==> k in doomed)
      {
        var key :| key in doomed;
        rows := rows - {key};
        doomed := doomed - {key};
      }
    }
  }

  datatype Outcome = Completed | Failed | Cancelled

  /** Every proposal of a channel's run taken to the store. */
  ghost predicate Settled(before: map<Key, Position>, channel: Id, proposals: map<Spot, Position>,
                          after: map<Key, Position>) {
    && (forall k :: k in before ==> k in after)
    && (forall k :: k in after ==> k in before || (k.channel == channel && k.spot in proposals))
    && (forall k :: k in after && !(k.channel == channel && k.spot in proposals) ==> after[k] == before[k])
    && (forall s :: s in proposals ==>
        Get(after, Key(channel, s)) == MaxPosition(Get(before, Key(channel, s)), Some(proposals[s])))
  }

  lemma SettleOneMore(before: map<Key, Position>, channel: Id, proposals: map<Spot, Position>, left: set<Spot>,
                      rows: map<Key, Position>, spot: Spot)
    requires Settled(before, channel, proposals - left, rows) && spot in left && left <= proposals.Keys
    ensures Settled(before, channel, proposals - (left - {spot}), Raise(rows, Key(channel, spot), proposals[spot]))
  {
    var key := Key(channel, spot);
    assert Get(rows, key) == Get(before, key);
    assert (proposals - (left - {spot})).Keys == (proposals - left).Keys + {spot};
  }

  /** Only a run that completed, and did not stop at one node, moves cursors; each goes to the greater of
      what is stored and what the run proposed. */
  method AdvanceFromRun(store: MemoryCheckpointStore, channel: Id, outcome: Outcome, stopAt: bool, blob: Option<Blob>)
    modifies store
    ensures outcome != Completed || stopAt ==> store.rows == old(store.rows)
    ensures outcome == Completed && !stopAt ==> Settled(old(store.rows), channel, Proposals(blob), store.rows)
  {
    if outcome != Completed {
      return;
    }
    if stopAt {
      return;
    }
    var proposals := LoadProposals(blob);
    var left := proposals.Keys;
    hide Raise;
    while left != {}
      invariant left <= proposals.Keys
      invariant Settled(old(store.rows), channel, proposals - left, store.rows)
    {
      var spot :| spot in left;
      SettleOneMore(old(store.rows), channel, proposals, left, store.rows, spot);
      store.Advance(Key(channel, spot), proposals[spot]);
      left := left - {spot};
    }
    assert proposals - {} == proposals;
  }

  /** One run's bounds and proposals, written through to its row. */
  class RunCheckpoints {
    const channel: Id
    const store: MemoryCheckpointStore
    var bounds: map<Spot, nat>
    var proposals: map<Spot, Position>
    var row: Option<Blob>

    /** The row always holds what a session opened on it later would load. */
    ghost predicate Valid()
      reads this
    {
      proposals == Proposals(row)
    }

    constructor (channel: Id, store: MemoryCheckpointStore, row: Option<Blob>)
      ensures Valid() && this.channel == channel && this.store == store && this.row == row && bounds == map[]
      ensures proposals == Proposals(row)
    {
      this.channel, this.store, this.row := channel, store, row;
      this.bounds := map[];
      var loaded := LoadProposals(row);
      this.proposals := loaded;
    }

    method Durable(spot: Spot) returns (position: Option<Position>)
      ensures position == Get(store.rows, Key(channel, spot))
    {
      position := store.Read(Key(channel, spot));
    }

    method Proposed(spot: Spot) returns (position: Option<Position>)
      ensures position == Get(proposals, spot)
    {
      position := if spot in proposals then Some(proposals[spot]) else None;
    }

    method Stored(spot: Spot) returns (position: Option<Position>)
      ensures position == MaxPosition(Get(store.rows, Key(channel, spot)), Get(proposals, spot))
    {
      var durable := Durable(spot);
      var proposed := Proposed(spot);
      position := MaxPosition(durable, proposed);
    }

    /** The bound of a stream is taken the first time it is asked for and kept for the session. */
    method Bound(spot: Spot, latest: nat) returns (bound: nat)
      modifies this`bounds
      ensures bounds == if spot in old(bounds) then old(bounds) else old(bounds)[spot := latest]
      ensures bound == bounds[spot]
    {
      if spot !in bounds {
        bounds := bounds[spot := latest];
      }
      bound := bounds[spot];
    }

    method Propose(spot: Spot, position: Position)
      requires Valid()
      modifies this`proposals, this`row
      ensures Valid() && proposals == Raise(old(proposals), spot, position)
    {
      if spot in proposals && !Ahead(position, proposals[spot]) {
        return;
      }
      proposals := proposals[spot := position];
      var blob := DumpProposals(proposals);
      row := Some(blob);
    }
  }
}
